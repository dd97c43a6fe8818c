/**
 The control plane of the broker-managed realtime socket (`_run_realtime_socket`): generations,
 the executor turn and its one-entry queue, the single render slot, and the output authorization.

 Every await-free stretch of the five socket tasks is one step. A coroutine suspended at an await
 is a `Frame`; any frame may be resumed or aborted at any time, so every interleaving of the tasks,
 every provider, device and executor event and every cancellation is covered.
 */
module ManagedControl {
  import opened Wrappers

  const MAX_MANAGED_TURNS_PER_SESSION := 1024
  const MAX_USER_TURN_CORRELATIONS := 64

  type TurnId = string
  type ResponseId = string

  /** The active executor turn. `inc` tells apart turns that reuse a provider id. */
  datatype Turn = Turn(id: TurnId, gen: nat, inc: nat, hadTool: bool, interrupting: bool)

  /** The bridge-owned render slot. */
  datatype Render = Render(
    gen: nat, inc: nat, ack: bool, started: bool, responseId: Option<ResponseId>, turnId: Option<TurnId>,
    terminalSeen: bool, cancelRequested: bool)

  datatype Owner = Owner(id: Option<TurnId>, gen: Option<nat>)
  datatype Request = Request(gen: nat, text: string)
  datatype UserTurn = UserTurn(id: TurnId, gen: nat)
  datatype Transcript = Blank | Oversized | Spoken(text: string)
  datatype Answer = NoAnswer | BlankAnswer | Speak(text: string)

  /**
   A suspended coroutine. `bind` is the user turn an interrupting coroutine still has to put in the
   correlation table; `request` is the request or the answer a coroutine carries.
   */
  datatype Frame =
    | EndThenInterrupt(owner: Owner, bind: Option<UserTurn>)  // suspended in end_output or a device send
    | EndThenStart(request: Request)
    | EndThenTerminal(id: TurnId, responseId: Option<ResponseId>, owned: bool)
    | EndThenTake(request: Request)
    | InterruptWait(owner: Owner, bind: Option<UserTurn>)     // waiting for the turn lock
    | InterruptHold(inc: nat, bind: Option<UserTurn>)         // holds the lock until the turn is over
    | StartWait(request: Request)                             // waiting for the turn lock
    | StartInterrupt(request: Request, inc: nat)              // holds the lock until the old turn is over
    | StartRpc(request: Request)                              // holds the lock across turn/start
    | StartDone                                               // holds the lock: stale interrupt or buffered events
    | ForcedHold                                              // watchdog or shutdown holding the lock
    | RenderWait(request: Request, inc: nat)                  // waiting for the previous render to retire
    | RenderQuiet(request: Request)                           // sleeping through the quiet tail
    | RenderRpc(gen: nat, inc: nat)                           // inside append_speech

  // ----- history kept beside the state, read by no step -----

  /** Where the one request of a generation is. */
  datatype Stage =
    | Unused
    | Awaited                  // speech started, no user turn yet
    | Bound(id: TurnId)        // in the user-turn correlation table
    | Carried(frame: nat)      // in a suspended coroutine
    | Queued
    | Starting(frame: nat)     // turn/start has been sent
    | Running(inc: nat)
    | Answering(frame: nat)    // the turn completed, its answer is on its way to the slot
    | Rendered(inc: nat)
    | Over

  /** What one provider turn id was claimed for. */
  datatype Claim = Tombstone | User(gen: nat) | Dispatched | Bound(inc: nat)

  datatype History = History(
    stage: map<nat, Stage>,
    claims: map<TurnId, Claim>,
    starts: seq<nat>,                // generations of turn/start calls, in order
    completions: seq<nat>,           // generations whose executor turn completed
    dispatches: seq<TurnId>,         // user turns whose transcript became a request
    bindings: seq<TurnId>,           // assistant turns bound to a render
    takes: seq<nat>,                 // generations that took the render slot
    barged: set<nat>,                // executor turns interrupted by a newer utterance, text or interrupt
    toolTurns: set<nat>,             // executor turns that dispatched a tool to Home Assistant
    failedRenders: set<nat>,         // generations whose append_speech failed
    sent: seq<Request>,              // what the turn/start calls asked for, in order
    spoken: seq<Request>)            // what the append_speech calls were given, in order

  datatype State = State(
    gen: nat,
    outGen: Option<nat>,
    turn: Option<Turn>,
    turnCount: nat,
    turnLock: Option<nat>,
    starting: bool,
    queued: Option<Request>,
    transcriptHandled: bool,
    pendingSpeech: Option<nat>,
    userTurns: seq<UserTurn>,
    claimed: set<TurnId>,
    render: Option<Render>,
    renderCount: nat,
    failed: bool,
    frames: map<nat, Frame>,
    nextFrame: nat,
    hist: History)

  function Init(): State {
    State(0, None, None, 0, None, false, None, false, None, [], {}, None, 0, false, map[], 0,
          History(map[], map[], [], [], [], [], [], {}, {}, {}, [], []))
  }

  // ----- pieces shared by several steps -----

  function CurrentOwner(s: State): Owner {
    match s.turn
    case None => Owner(None, None)
    case Some(t) => Owner(Some(t.id), Some(t.gen))
  }

  function ActiveId(s: State): Option<TurnId> { CurrentOwner(s).id }

  /** The barge-in tombstone: a new generation, and no authorized output. */
  function BeginGeneration(s: State, stage: Stage): State {
    s.(gen := s.gen + 1, outGen := None, hist := s.hist.(stage := s.hist.stage[s.gen + 1 := stage]))
  }

  function Spawn(s: State, f: Frame): State {
    s.(frames := s.frames[s.nextFrame := f], nextFrame := s.nextFrame + 1)
  }

  function Put(s: State, id: nat, f: Frame): State { s.(frames := s.frames[id := f]) }

  function Drop(s: State, id: nat): State { s.(frames := s.frames - {id}) }

  function Release(s: State, id: nat): State {
    if s.turnLock == Some(id) then s.(turnLock := None) else s
  }

  function Leave(s: State, id: nat): State { Drop(Release(s, id), id) }

  function At(s: State, g: nat, stage: Stage): State {
    s.(hist := s.hist.(stage := s.hist.stage[g := stage]))
  }

  function ClaimFor(s: State, id: TurnId, c: Claim): State {
    s.(claimed := s.claimed + {id}, hist := s.hist.(claims := s.hist.claims[id := c]))
  }

  /** `claim_managed_turn_id` with its result ignored: claims, or fails the socket at the limit. */
  function ClaimTombstone(s: State, id: TurnId): State {
    if id in s.claimed then s
    else if |s.claimed| >= MAX_MANAGED_TURNS_PER_SESSION then s.(failed := true)
    else ClaimFor(s, id, Tombstone)
  }

  function CancelRender(s: State): State {
    match s.render
    case Some(r) => if r.started then s.(render := Some(r.(cancelRequested := true))) else s
    case None => s
  }

  function MaybeRetire(s: State): State {
    match s.render
    case Some(r) => if r.ack && r.terminalSeen then s.(render := None) else s
    case None => s
  }

  /** Whether a provider start may be bound to the render in the slot. */
  predicate StartMatches(s: State, responseId: Option<ResponseId>, turnId: Option<TurnId>) {
    && s.render.Some? && s.render.value.ack && (responseId.Some? || turnId.Some?)
    && (responseId.Some? && s.render.value.responseId.Some? ==> s.render.value.responseId == responseId)
    && (turnId.Some? && s.render.value.turnId.Some? ==> s.render.value.turnId == turnId)
  }

  function MarkStarted(s: State, responseId: Option<ResponseId>, turnId: Option<TurnId>): State
    requires s.render.Some?
  {
    var r := s.render.value;
    s.(render := Some(r.(responseId := if responseId.Some? then responseId else r.responseId,
                         turnId := if turnId.Some? then turnId else r.turnId, started := true)))
  }

  /** Whether a terminal belongs to the render in the slot: every id it names was recorded at the start. */
  predicate TerminalMatches(s: State, responseId: Option<ResponseId>, turnId: Option<TurnId>) {
    && s.render.Some? && s.render.value.ack && s.render.value.started && (responseId.Some? || turnId.Some?)
    && (responseId.Some? ==> s.render.value.responseId == responseId)
    && (turnId.Some? ==> s.render.value.turnId == turnId)
  }

  // ----- provider data-channel events -----

  function ContextAppended(s: State): State {
    match s.render
    case Some(r) => MaybeRetire(s.(render := Some(r.(ack := true))))
    case None => s
  }

  function BindUserTurn(s: State, id: TurnId, gen: nat): State {
    var turns := s.userTurns + [UserTurn(id, gen)];
    At(s, gen, Stage.Bound(id)).(userTurns :=
      if |turns| > MAX_USER_TURN_CORRELATIONS then turns[|turns| - MAX_USER_TURN_CORRELATIONS..] else turns)
  }

  function UserTurnCreated(s: State, id: TurnId): State {
    if id in s.claimed then s
    else if |s.claimed| >= MAX_MANAGED_TURNS_PER_SESSION then s.(failed := true)
    else if s.pendingSpeech == Some(s.gen) then
      BindUserTurn(ClaimFor(s, id, User(s.gen)).(pendingSpeech := None), id, s.gen)
    else
      var owner := CurrentOwner(s);
      var s1 := BeginGeneration(ClaimFor(s, id, User(s.gen + 1)), Carried(s.nextFrame)).(transcriptHandled := false);
      Spawn(CancelRender(s1), EndThenInterrupt(owner, Some(UserTurn(id, s1.gen))))
  }

  function FindUserTurn(turns: seq<UserTurn>, id: TurnId): (i: nat)
    ensures i <= |turns| && (i < |turns| ==> turns[i].id == id)
    ensures forall j :: 0 <= j < i ==> turns[j].id != id
  {
    if turns == [] || turns[0].id == id then 0 else 1 + FindUserTurn(turns[1..], id)
  }

  /** A transcript becomes the request of its generation. */
  function Dispatch(s: State, id: TurnId, g: nat, text: string): State {
    var s1 := At(CancelRender(s), g, Carried(s.nextFrame));
    Spawn(s1.(hist := s1.hist.(claims := s1.hist.claims[id := Dispatched], dispatches := s1.hist.dispatches + [id])),
          EndThenStart(Request(g, text)))
  }

  function UserTurnDone(s: State, id: Option<TurnId>, transcript: Transcript): State {
    if id.None? then s
    else
      var i := FindUserTurn(s.userTurns, id.value);
      if i == |s.userTurns| then ClaimTombstone(s, id.value)
      else
        var g := s.userTurns[i].gen;
        var s1 := s.(userTurns := s.userTurns[..i] + s.userTurns[i + 1..]);
        if g != s.gen || s.transcriptHandled then s1
        else
          var s2 := s1.(transcriptHandled := true);
          if transcript.Spoken? then Dispatch(s2, id.value, g, transcript.text) else s2
  }

  function SpeechStarted(s: State): State {
    if s.pendingSpeech.Some? then s
    else
      var owner := CurrentOwner(s);
      var s1 := BeginGeneration(s, Awaited);
      Spawn(CancelRender(s1.(pendingSpeech := Some(s1.gen), transcriptHandled := false)),
            EndThenInterrupt(owner, None))
  }

  function AssistantTurnCreated(s: State, id: TurnId): State {
    if id in s.claimed then s
    else if |s.claimed| >= MAX_MANAGED_TURNS_PER_SESSION then s.(failed := true)
    else if !StartMatches(s, None, Some(id)) then ClaimFor(s, id, Tombstone)
    else
      var s1 := MarkStarted(ClaimFor(s, id, Claim.Bound(s.render.value.inc)), None, Some(id));
      var s2 := s1.(hist := s1.hist.(bindings := s1.hist.bindings + [id]));
      if s.render.value.gen != s.gen then CancelRender(s2) else s2.(outGen := Some(s.gen))
  }

  /** The end of an assistant turn, correlated by its turn first and then by everything it names. */
  function AssistantTurnDone(s: State, id: TurnId, responseId: Option<ResponseId>): State {
    if !TerminalMatches(s, None, Some(id)) then ClaimTombstone(s, id)
    else if !TerminalMatches(s, responseId, Some(id)) then s
    else Spawn(s, EndThenTerminal(id, responseId, s.outGen == Some(s.gen)))
  }

  // ----- device messages -----

  function DeviceText(s: State, text: string): State {
    var s1 := BeginGeneration(s, Carried(s.nextFrame)).(pendingSpeech := None, transcriptHandled := true);
    Spawn(CancelRender(s1), EndThenStart(Request(s1.gen, text)))
  }

  function DeviceInterrupt(s: State): State {
    var owner := CurrentOwner(s);
    var s1 := BeginGeneration(s, Unused).(pendingSpeech := None, transcriptHandled := true);
    Spawn(CancelRender(s1), EndThenInterrupt(owner, None))
  }

  // ----- executor events -----

  /** Events for a turn whose `turn/start` has not returned are buffered and handled later. */
  predicate Buffered(s: State, id: Option<TurnId>) { s.starting && s.turn.None? && id.Some? }

  predicate ToolAdmitted(s: State, id: Option<TurnId>) {
    && id == ActiveId(s)
    && (s.turn.Some? ==> !s.turn.value.interrupting)
    && CurrentOwner(s).gen == Some(s.gen)
  }

  function ToolCall(s: State, id: Option<TurnId>): State {
    if Buffered(s, id) || !ToolAdmitted(s, id) then s
    else
      var t := s.turn.value;
      s.(turn := Some(t.(hadTool := true)), hist := s.hist.(toolTurns := s.hist.toolTurns + {t.inc}))
  }

  /** `append_background_speech`, up to its first await. */
  function BeginAppend(s: State, gen: nat, answer: Answer): State {
    if gen != s.gen || !answer.Speak? then s
    else
      var s1 := At(CancelRender(s), gen, Answering(s.nextFrame));
      Spawn(s1, if s.render.Some? then RenderWait(Request(gen, answer.text), s.render.value.inc)
                else RenderQuiet(Request(gen, answer.text)))
  }

  function Complete(s: State, gen: nat): State {
    At(s, gen, Over).(hist := At(s, gen, Over).hist.(completions := s.hist.completions + [gen]))
  }

  function TurnCompleted(s: State, id: Option<TurnId>, completed: bool, answer: Answer): State {
    if Buffered(s, id) || id != ActiveId(s) then s
    else
      var gen := CurrentOwner(s).gen;
      var queued := s.queued;
      var s1 := s.(turn := None, queued := None);
      var s2 := if gen.Some? then Complete(s1, gen.value) else s1;
      if gen == Some(s.gen) && !completed then s2.(failed := true)
      else
        var s3 := if gen.Some? then BeginAppend(s2, gen.value, answer) else s2;
        if queued.Some? && queued.value.gen == s3.gen then
          Spawn(At(s3, queued.value.gen, Carried(s3.nextFrame)), StartWait(queued.value))
        else s3
  }

  // ----- watchdog and shutdown, which interrupt whatever the turn has done -----

  function WatchdogExpired(s: State): State {
    if s.turn.None? || s.turnLock.Some? then s
    else
      var s1 := BeginGeneration(s, Unused);
      Spawn(s1.(turn := Some(s.turn.value.(interrupting := true)), turnLock := Some(s.nextFrame)), ForcedHold)
  }

  function ShutdownTombstone(s: State): State {
    var s1 := BeginGeneration(s, Unused).(queued := None);
    if s.turn.Some? then s1.(turn := Some(s.turn.value.(interrupting := true))) else s1
  }

  function ShutdownInterrupt(s: State): State {
    if s.turnLock.Some? then s else Spawn(s.(turnLock := Some(s.nextFrame)), ForcedHold)
  }

  // ----- resuming a suspended coroutine -----

  function FinishInterrupt(s: State, id: nat, bind: Option<UserTurn>): State {
    var s1 := Leave(s, id);
    if bind.Some? then BindUserTurn(s1, bind.value.id, bind.value.gen) else s1
  }

  predicate TurnOver(s: State, inc: nat) { s.turn.None? || s.turn.value.inc != inc }

  /** Sets the tombstone on a turn that has run no tool, and takes the lock. */
  function Barge(s: State, id: nat, f: Frame): State
    requires s.turn.Some?
  {
    var t := s.turn.value;
    Put(s.(turn := Some(t.(interrupting := true)), turnLock := Some(id),
           hist := s.hist.(barged := s.hist.barged + {t.inc})), id, f)
  }

  function SendTurnStart(s: State, id: nat, r: Request): State {
    var s1 := At(s.(queued := None, starting := true, turnLock := Some(id)), r.gen, Starting(id));
    Put(s1.(hist := s1.hist.(starts := s1.hist.starts + [r.gen], sent := s1.hist.sent + [r])), id, StartRpc(r))
  }

  function ResumeTerminal(s: State, id: nat, turnId: TurnId, responseId: Option<ResponseId>, owned: bool): State {
    var s1 := if owned then s.(outGen := None) else s;
    Drop(if TerminalMatches(s1, responseId, Some(turnId))
         then MaybeRetire(s1.(render := Some(s1.render.value.(terminalSeen := true))))
         else s1, id)
  }

  /** The slot is taken: append_speech is called for this generation. */
  function OccupySlot(s: State, id: nat, r: Request): State {
    var s1 := At(s, r.gen, Rendered(s.renderCount));
    Put(s1.(render := Some(Render(r.gen, s.renderCount, false, false, None, None, false, false)),
            renderCount := s.renderCount + 1,
            hist := s1.hist.(takes := s1.hist.takes + [r.gen], spoken := s1.hist.spoken + [r])),
        id, RenderRpc(r.gen, s.renderCount))
  }

  function ResumeTake(s: State, id: nat, r: Request): State {
    if r.gen != s.gen then Drop(s, id) else OccupySlot(s, id, r)
  }

  function ResumeInterruptWait(s: State, id: nat, owner: Owner, bind: Option<UserTurn>): State {
    if s.turnLock.Some? then s
    else if CurrentOwner(s) != owner || s.turn.None? || s.turn.value.hadTool then FinishInterrupt(s, id, bind)
    else Barge(s, id, InterruptHold(s.turn.value.inc, bind))
  }

  function ResumeStartWait(s: State, id: nat, r: Request): State {
    if s.turnLock.Some? then s
    else if r.gen != s.gen then Drop(s, id)
    else if s.turn.None? then SendTurnStart(s, id, r)
    else if s.turn.value.hadTool then Drop(At(s, r.gen, Stage.Queued), id).(queued := Some(r))
    else Barge(s, id, StartInterrupt(r, s.turn.value.inc))
  }

  function ResumeStartInterrupt(s: State, id: nat, r: Request, inc: nat): State {
    if !TurnOver(s, inc) then s
    else if r.gen != s.gen then Leave(s, id)
    else SendTurnStart(s, id, r)
  }

  function Resume(s: State, id: nat): State {
    if id !in s.frames then s
    else
      match s.frames[id]
      case EndThenInterrupt(owner, bind) => Put(s, id, InterruptWait(owner, bind))
      case EndThenStart(r) => Put(s, id, StartWait(r))
      case EndThenTerminal(turnId, responseId, owned) => ResumeTerminal(s, id, turnId, responseId, owned)
      case EndThenTake(r) => ResumeTake(s, id, r)
      case InterruptWait(owner, bind) => ResumeInterruptWait(s, id, owner, bind)
      case InterruptHold(inc, bind) => if TurnOver(s, inc) then FinishInterrupt(s, id, bind) else s
      case StartWait(r) => ResumeStartWait(s, id, r)
      case StartInterrupt(r, inc) => ResumeStartInterrupt(s, id, r, inc)
      case StartRpc(_) => s
      case StartDone => Leave(s, id)
      case ForcedHold => Leave(s, id)
      case RenderWait(r, inc) =>
        if s.render.Some? && s.render.value.inc == inc then s else Put(s, id, RenderQuiet(r))
      case RenderQuiet(r) => if r.gen != s.gen then Drop(s, id) else Put(s, id, EndThenTake(r))
      case RenderRpc(_, _) => Drop(s, id)
  }

  /** `turn/start` returned a turn id. */
  function TurnStarted(s: State, id: nat, turnId: TurnId): State {
    if id !in s.frames || !s.frames[id].StartRpc? then s
    else
      var r := s.frames[id].request;
      var s1 := Put(s.(starting := false), id, StartDone);
      if r.gen != s.gen then At(s1, r.gen, Over)
      else At(s1, r.gen, Running(s.turnCount)).(
              turn := Some(Turn(turnId, r.gen, s.turnCount, false, false)), turnCount := s.turnCount + 1)
  }

  /** An exception, timeout or cancellation at the await. It ends the socket. */
  function Abort(s: State, id: nat): State {
    if id !in s.frames then s
    else
      var s1 := Leave(s, id).(failed := true);
      match s.frames[id]
      case StartRpc(_) => s1.(starting := false)
      case RenderRpc(gen, _) =>
        if s1.render.Some? && s1.render.value.gen == gen
        then s1.(render := None, hist := s1.hist.(failedRenders := s1.hist.failedRenders + {gen}))
        else s1
      case _ => s1
  }

  // ----- runs -----

  datatype Event =
    | EContextAppended
    | EUserTurnCreated(id: TurnId)
    | EUserTurnDone(doneId: Option<TurnId>, transcript: Transcript)
    | ESpeechStarted
    | EAssistantTurnCreated(id: TurnId)
    | EAssistantTurnDone(id: TurnId, responseId: Option<ResponseId>)
    | EDeviceText(text: string)
    | EDeviceInterrupt
    | EToolCall(toolTurn: Option<TurnId>)
    | ETurnCompleted(completedId: Option<TurnId>, completed: bool, answer: Answer)
    | EWatchdogExpired
    | ETombstone
    | EShutdownInterrupt
    | EResume(frame: nat)
    | ETurnStarted(frame: nat, id: TurnId)
    | EAbort(frame: nat)

  function Step(s: State, e: Event): State {
    match e
    case EContextAppended => ContextAppended(s)
    case EUserTurnCreated(id) => UserTurnCreated(s, id)
    case EUserTurnDone(id, transcript) => UserTurnDone(s, id, transcript)
    case ESpeechStarted => SpeechStarted(s)
    case EAssistantTurnCreated(id) => AssistantTurnCreated(s, id)
    case EAssistantTurnDone(id, responseId) => AssistantTurnDone(s, id, responseId)
    case EDeviceText(text) => DeviceText(s, text)
    case EDeviceInterrupt => DeviceInterrupt(s)
    case EToolCall(id) => ToolCall(s, id)
    case ETurnCompleted(id, completed, answer) => TurnCompleted(s, id, completed, answer)
    case EWatchdogExpired => WatchdogExpired(s)
    case ETombstone => ShutdownTombstone(s)
    case EShutdownInterrupt => ShutdownInterrupt(s)
    case EResume(frame) => Resume(s, frame)
    case ETurnStarted(frame, id) => TurnStarted(s, frame, id)
    case EAbort(frame) => Abort(s, frame)
  }

  /** The state after a run of events, from a fresh socket. */
  function Reached(events: seq<Event>): State {
    if events == [] then Init() else Step(Reached(events[..|events| - 1]), events[|events| - 1])
  }
}
