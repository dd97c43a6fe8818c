/**
 A suspended coroutine stays where it is until it is itself resumed or aborted, whatever else happens, and
 a render that has left the slot never comes back to it.
 */
module ManagedFrames {
  import opened Wrappers
  import opened ManagedControl
  import opened ManagedInvariant
  import opened ManagedSafety

  /** Frame `f` is still suspended where it was, and a render that went does not come back. */
  predicate Later(s: State, t: State, f: nat) {
    && s.nextFrame <= t.nextFrame && s.renderCount <= t.renderCount
    && (f in s.frames && f < s.nextFrame ==> f in t.frames && t.frames[f] == s.frames[f])
    && (t.render.Some? ==> SameRender(s, t) || t.render.value.inc >= s.renderCount)
  }

  predicate Touches(e: Event, f: nat) { (e.EResume? && e.frame == f) || (e.EAbort? && e.frame == f) }

  lemma LaterTrans(s: State, t: State, u: State, f: nat)
    requires Later(s, t, f) && Later(t, u, f)
    ensures Later(s, u, f)
  {}

  /** Nothing of what `Later` speaks of has changed. */
  predicate Still(s: State, t: State) {
    && t.frames == s.frames && t.nextFrame == s.nextFrame && t.renderCount == s.renderCount
    && (t.render.Some? ==> SameRender(s, t))
  }

  lemma StillLater(s: State, t: State, u: State, f: nat)
    requires Still(s, t) && Later(t, u, f)
    ensures Later(s, u, f)
  {}

  lemma LaterStill(s: State, t: State, f: nat)
    requires Still(s, t)
    ensures Later(s, t, f)
  {}

  lemma AtStill(s: State, g: nat, st: Stage) ensures Still(s, At(s, g, st)) {}

  lemma CancelStill(s: State) ensures Still(s, CancelRender(s)) {}

  lemma BeginStill(s: State, st: Stage) ensures Still(s, BeginGeneration(s, st)) {}

  lemma ClaimStill(s: State, id: TurnId, c: Claim)
    ensures Still(s, ClaimFor(s, id, c)) && Still(s, ClaimTombstone(s, id))
  {}

  lemma BindStill(s: State, id: TurnId, g: nat) ensures Still(s, BindUserTurn(s, id, g)) {}

  lemma CompleteStill(s: State, g: nat) ensures Still(s, Complete(s, g)) {}

  lemma SpawnLater(s: State, frame: Frame, f: nat) ensures Later(s, Spawn(s, frame), f) {}

  lemma PutLater(s: State, id: nat, frame: Frame, f: nat)
    requires id != f
    ensures Later(s, Put(s, id, frame), f) && Later(s, Drop(s, id), f) && Later(s, Leave(s, id), f)
  {}

  lemma CancelSpawnLater(s: State, frame: Frame, f: nat)
    ensures Later(s, Spawn(CancelRender(s), frame), f)
  {
    hide Later, Still, CancelRender, Spawn;
    CancelStill(s);
    SpawnLater(CancelRender(s), frame, f);
    StillLater(s, CancelRender(s), Spawn(CancelRender(s), frame), f);
  }

  lemma NothingLater(s: State, f: nat) ensures Later(s, s, f) && Later(s, s.(failed := true), f) {}

  /** The tombstone of the four events that begin a generation. */
  lemma TombstoneLater(s: State, s1: State, st: Stage, pending: Option<nat>, handled: bool, frame: Frame, f: nat)
    requires Still(s, s1)
    ensures Later(s, Spawn(CancelRender(BeginGeneration(s1, st).(pendingSpeech := pending, transcriptHandled := handled)), frame), f)
  {
    var u := BeginGeneration(s1, st).(pendingSpeech := pending, transcriptHandled := handled);
    assert Still(s, u) by { BeginStill(s1, st); }
    hide Later, Still, CancelRender, Spawn, BeginGeneration;
    CancelSpawnLater(u, frame, f);
    StillLater(s, u, Spawn(CancelRender(u), frame), f);
  }

  lemma SpeechLater(s: State, f: nat)
    ensures Later(s, SpeechStarted(s), f)
  {
    SameStill(s);
    hide Later, Still, CancelRender, Spawn, BeginGeneration;
    NothingLater(s, f);
    if s.pendingSpeech.Some? { return; }
    TombstoneLater(s, s, Awaited, Some(BeginGeneration(s, Awaited).gen), false, EndThenInterrupt(CurrentOwner(s), None), f);
  }

  lemma SameStill(s: State) ensures Still(s, s) {}

  lemma ContinuedLater(s: State, id: TurnId, f: nat)
    ensures Later(s, BindUserTurn(ClaimFor(s, id, User(s.gen)).(pendingSpeech := None), id, s.gen), f)
  {
    BindStill(ClaimFor(s, id, User(s.gen)).(pendingSpeech := None), id, s.gen);
  }

  lemma UserCreatedLater(s: State, id: TurnId, f: nat)
    ensures Later(s, UserTurnCreated(s, id), f)
  {
    hide Later, Still, CancelRender, Spawn, BeginGeneration, ClaimFor, BindUserTurn;
    NothingLater(s, f);
    if id in s.claimed || |s.claimed| >= MAX_MANAGED_TURNS_PER_SESSION { return; }
    ContinuedLater(s, id, f);
    if s.pendingSpeech == Some(s.gen) { return; }
    ClaimStill(s, id, User(s.gen + 1));
    var s1 := ClaimFor(s, id, User(s.gen + 1));
    var b := BeginGeneration(s1, Carried(s.nextFrame));
    TombstoneLater(s, s1, Carried(s.nextFrame), b.pendingSpeech, false,
                   EndThenInterrupt(CurrentOwner(s), Some(UserTurn(id, b.gen))), f);
  }

  lemma DispatchLater(s: State, id: TurnId, g: nat, text: string, f: nat)
    ensures Later(s, Dispatch(s, id, g, text), f)
  {
    CancelStill(s);
    var s1 := At(CancelRender(s), g, Carried(s.nextFrame));
    var s2 := s1.(hist := s1.hist.(claims := s1.hist.claims[id := Dispatched], dispatches := s1.hist.dispatches + [id]));
    assert Still(s, s2);
    hide Later, Still, CancelRender, Spawn, At;
    SpawnLater(s2, EndThenStart(Request(g, text)), f);
    StillLater(s, s2, Spawn(s2, EndThenStart(Request(g, text))), f);
  }

  lemma UserDoneLater(s: State, id: Option<TurnId>, transcript: Transcript, f: nat)
    ensures Later(s, UserTurnDone(s, id, transcript), f)
  {
    NothingLater(s, f);
    if id.None? { return; }
    var i := FindUserTurn(s.userTurns, id.value);
    if i == |s.userTurns| { ClaimStill(s, id.value, Tombstone); LaterStill(s, ClaimTombstone(s, id.value), f); return; }
    var rest := s.userTurns[..i] + s.userTurns[i + 1..];
    TableLater(s, rest, f);
    hide Later, Dispatch;
    var s2 := s.(userTurns := rest, transcriptHandled := true);
    if s.userTurns[i].gen == s.gen && !s.transcriptHandled && transcript.Spoken? {
      DispatchLater(s2, id.value, s.userTurns[i].gen, transcript.text, f);
      LaterTrans(s, s2, UserTurnDone(s, id, transcript), f);
    }
  }

  lemma TableLater(s: State, rest: seq<UserTurn>, f: nat)
    ensures Later(s, s.(userTurns := rest), f) && Later(s, s.(userTurns := rest, transcriptHandled := true), f)
  {}

  lemma AssistantCreatedLater(s: State, id: TurnId, f: nat)
    ensures Later(s, AssistantTurnCreated(s, id), f)
  {
    if id in s.claimed || |s.claimed| >= MAX_MANAGED_TURNS_PER_SESSION { return; }
    ClaimStill(s, id, Tombstone);
    if !StartMatches(s, None, Some(id)) { return; }
    StartedStill(s, id);
    var s1 := MarkStarted(ClaimFor(s, id, Claim.Bound(s.render.value.inc)), None, Some(id));
    var s2 := s1.(hist := s1.hist.(bindings := s1.hist.bindings + [id]));
    hide CancelRender, MarkStarted, ClaimFor;
    CancelStill(s2);
  }

  lemma StartedStill(s: State, id: TurnId)
    requires s.render.Some?
    ensures Still(s, MarkStarted(ClaimFor(s, id, Claim.Bound(s.render.value.inc)), None, Some(id)))
    ensures SameRender(s, MarkStarted(ClaimFor(s, id, Claim.Bound(s.render.value.inc)), None, Some(id)))
  {}

  lemma AssistantDoneLater(s: State, id: TurnId, responseId: Option<ResponseId>, f: nat)
    ensures Later(s, AssistantTurnDone(s, id, responseId), f)
  {
    NothingLater(s, f);
    ClaimStill(s, id, Tombstone);
    LaterStill(s, ClaimTombstone(s, id), f);
    SpawnLater(s, EndThenTerminal(id, responseId, s.outGen == Some(s.gen)), f);
    hide Later, Still, Spawn, ClaimTombstone;
  }

  lemma DeviceLater(s: State, text: string, f: nat)
    ensures Later(s, DeviceText(s, text), f) && Later(s, DeviceInterrupt(s), f)
  {
    SameStill(s);
    hide Later, Still, CancelRender, Spawn, BeginGeneration;
    var b := BeginGeneration(s, Carried(s.nextFrame));
    TombstoneLater(s, s, Carried(s.nextFrame), None, true, EndThenStart(Request(b.gen, text)), f);
    TombstoneLater(s, s, Unused, None, true, EndThenInterrupt(CurrentOwner(s), None), f);
  }

  lemma OtherLater(s: State, id: Option<TurnId>, f: nat)
    ensures Later(s, ContextAppended(s), f) && Later(s, ToolCall(s, id), f)
  {}

  lemma ShutdownLater(s: State, f: nat)
    ensures Later(s, ShutdownTombstone(s), f)
  {}

  lemma ForcedLater(s: State, f: nat)
    ensures Later(s, WatchdogExpired(s), f) && Later(s, ShutdownInterrupt(s), f)
  {}

  lemma AppendLater(s: State, g: nat, answer: Answer, f: nat)
    ensures Later(s, BeginAppend(s, g, answer), f)
  {
    NothingLater(s, f);
    if g != s.gen || !answer.Speak? { return; }
    CancelStill(s);
    AtStill(CancelRender(s), g, Answering(s.nextFrame));
    var s1 := At(CancelRender(s), g, Answering(s.nextFrame));
    assert Still(s, s1);
    hide Later, Still, CancelRender, Spawn, At;
    var frame := if s.render.Some? then RenderWait(Request(g, answer.text), s.render.value.inc)
                 else RenderQuiet(Request(g, answer.text));
    SpawnLater(s1, frame, f);
    StillLater(s, s1, Spawn(s1, frame), f);
  }

  lemma ResumeQueuedLater(s: State, r: Request, f: nat)
    ensures Later(s, Spawn(At(s, r.gen, Carried(s.nextFrame)), StartWait(r)), f)
  {
    hide Later, Still, Spawn, At;
    AtStill(s, r.gen, Carried(s.nextFrame));
    SpawnLater(At(s, r.gen, Carried(s.nextFrame)), StartWait(r), f);
    StillLater(s, At(s, r.gen, Carried(s.nextFrame)), Spawn(At(s, r.gen, Carried(s.nextFrame)), StartWait(r)), f);
  }

  lemma CompletedLater(s: State, id: Option<TurnId>, completed: bool, answer: Answer, f: nat)
    ensures Later(s, TurnCompleted(s, id, completed, answer), f)
  {
    NothingLater(s, f);
    if Buffered(s, id) || id != ActiveId(s) { return; }
    var g, s1 := CurrentOwner(s).gen, s.(turn := None, queued := None);
    var s2 := if g.Some? then Complete(s1, g.value) else s1;
    assert Still(s, s2);
    LaterStill(s, s2, f);
    LaterStill(s, s2.(failed := true), f);
    hide Later, Still, Spawn, At, Complete, BeginAppend;
    if g == Some(s.gen) && !completed { return; }
    var s3 := if g.Some? then BeginAppend(s2, g.value, answer) else s2;
    if g.Some? { AppendLater(s2, g.value, answer, f); LaterTrans(s, s2, s3, f); }
    if s.queued.Some? {
      ResumeQueuedLater(s3, s.queued.value, f);
      LaterTrans(s, s3, Spawn(At(s3, s.queued.value.gen, Carried(s3.nextFrame)), StartWait(s.queued.value)), f);
    }
  }

  lemma StartedLater(s: State, id: nat, turnId: TurnId, f: nat)
    requires id == f && f in s.frames ==> !s.frames[f].StartRpc?
    ensures Later(s, TurnStarted(s, id, turnId), f)
  {
    if id !in s.frames || !s.frames[id].StartRpc? { return; }
    var s1 := Put(s.(starting := false), id, StartDone);
    assert Later(s, s1, f);
    assert Still(s1, TurnStarted(s, id, turnId));
  }

  lemma AbortLater(s: State, id: nat, f: nat)
    requires id != f
    ensures Later(s, Abort(s, id), f)
  {
    if id !in s.frames { return; }
    PutLater(s, id, StartDone, f);
    var s1 := Leave(s, id).(failed := true);
    assert Later(s, s1, f);
    hide Leave;
    assert Still(s1, Abort(s, id));
    hide Later, Still;
    LaterStill(s1, Abort(s, id), f);
    LaterTrans(s, s1, Abort(s, id), f);
  }

  lemma FinishInterruptLater(s: State, id: nat, bind: Option<UserTurn>, f: nat)
    requires id != f
    ensures Later(s, FinishInterrupt(s, id, bind), f)
  {
    hide Later, Still, Leave, BindUserTurn;
    PutLater(s, id, StartDone, f);
    if bind.Some? {
      BindStill(Leave(s, id), bind.value.id, bind.value.gen);
      LaterStill(Leave(s, id), FinishInterrupt(s, id, bind), f);
      LaterTrans(s, Leave(s, id), FinishInterrupt(s, id, bind), f);
    }
  }

  lemma BargeLater(s: State, id: nat, frame: Frame, f: nat)
    requires id != f && s.turn.Some?
    ensures Later(s, Barge(s, id, frame), f)
  {}

  lemma SendLater(s: State, id: nat, r: Request, f: nat)
    requires id != f
    ensures Later(s, SendTurnStart(s, id, r), f) && Later(s, Drop(At(s, r.gen, Stage.Queued), id).(queued := Some(r)), f)
  {}

  lemma TerminalLater(s: State, id: nat, turnId: TurnId, responseId: Option<ResponseId>, owned: bool, f: nat)
    requires id != f
    ensures Later(s, ResumeTerminal(s, id, turnId, responseId, owned), f)
  {}

  lemma TakeLater(s: State, id: nat, r: Request, f: nat)
    requires id != f
    ensures Later(s, ResumeTake(s, id, r), f)
  {}

  lemma ResumeLater(s: State, id: nat, f: nat)
    requires id != f
    ensures Later(s, Resume(s, id), f)
  {
    hide Later, Still, FinishInterrupt, Barge, SendTurnStart, ResumeTerminal, ResumeTake, Put, Drop, Leave, At;
    NothingLater(s, f);
    if id !in s.frames { return; }
    PutLater(s, id, StartDone, f);
    match s.frames[id]
    case EndThenInterrupt(owner, bind) => PutLater(s, id, InterruptWait(owner, bind), f);
    case EndThenStart(r) => PutLater(s, id, StartWait(r), f);
    case EndThenTerminal(turnId, responseId, owned) => TerminalLater(s, id, turnId, responseId, owned, f);
    case EndThenTake(r) => TakeLater(s, id, r, f);
    case InterruptWait(owner, bind) =>
      FinishInterruptLater(s, id, bind, f);
      if s.turn.Some? { BargeLater(s, id, InterruptHold(s.turn.value.inc, bind), f); }
    case InterruptHold(inc, bind) => FinishInterruptLater(s, id, bind, f);
    case StartWait(r) =>
      SendLater(s, id, r, f);
      if s.turn.Some? { BargeLater(s, id, StartInterrupt(r, s.turn.value.inc), f); }
    case StartInterrupt(r, inc) => SendLater(s, id, r, f);
    case StartRpc(_) =>
    case StartDone =>
    case ForcedHold =>
    case RenderWait(r, inc) => PutLater(s, id, RenderQuiet(r), f);
    case RenderQuiet(r) => PutLater(s, id, EndThenTake(r), f);
    case RenderRpc(_, _) =>
  }

  lemma StepLater(s: State, e: Event, f: nat)
    requires !Touches(e, f) && (f in s.frames ==> !s.frames[f].StartRpc?)
    ensures Later(s, Step(s, e), f)
  {
    hide Later, ContextAppended, UserTurnCreated, UserTurnDone, SpeechStarted, AssistantTurnCreated, AssistantTurnDone,
      DeviceText, DeviceInterrupt, ToolCall, TurnCompleted, WatchdogExpired, ShutdownTombstone, ShutdownInterrupt, Resume,
      TurnStarted, Abort;
    match e
    case EContextAppended => OtherLater(s, None, f);
    case EUserTurnCreated(id) => UserCreatedLater(s, id, f);
    case EUserTurnDone(id, transcript) => UserDoneLater(s, id, transcript, f);
    case ESpeechStarted => SpeechLater(s, f);
    case EAssistantTurnCreated(id) => AssistantCreatedLater(s, id, f);
    case EAssistantTurnDone(id, responseId) => AssistantDoneLater(s, id, responseId, f);
    case EDeviceText(text) => DeviceLater(s, text, f);
    case EDeviceInterrupt => DeviceLater(s, "", f);
    case EToolCall(id) => OtherLater(s, id, f);
    case ETurnCompleted(id, completed, answer) => CompletedLater(s, id, completed, answer, f);
    case EWatchdogExpired => ForcedLater(s, f);
    case ETombstone => ShutdownLater(s, f);
    case EShutdownInterrupt => ForcedLater(s, f);
    case EResume(frame) => ResumeLater(s, frame, f);
    case ETurnStarted(frame, id) => StartedLater(s, frame, id, f);
    case EAbort(frame) => AbortLater(s, frame, f);
  }
}
