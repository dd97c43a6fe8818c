/**
 What the managed socket was asked is not lost on its way. An utterance waiting for its transcript, a request
 waiting for turn/start and an answer waiting for the render slot are each in one place, and leave it only for
 the next, because a newer generation superseded them, or with a coroutine whose failure ends the socket.
 */
module ManagedRequests {
  import opened Wrappers
  import opened ManagedControl
  import opened ManagedInvariant
  import opened ManagedSafety
  import opened ManagedFrames

  /** What a suspended coroutine has in hand. */
  datatype Cargo =
    | Nothing
    | Utterance(turn: UserTurn)
    | Question(request: Request)
    | Reply(request: Request)

  function CargoOf(f: Frame): Cargo {
    if HasBind(f) && f.bind.Some? then Utterance(f.bind.value)
    else if f.EndThenStart? || f.StartWait? || f.StartInterrupt? then Question(f.request)
    else if IsAnswer(f) then Reply(f.request)
    else Nothing
  }

  predicate Has(s: State, id: nat, c: Cargo) { id in s.frames && CargoOf(s.frames[id]) == c }

  /** The correlation table holds utterances, the one-entry queue a request. */
  predicate Shelved(s: State, c: Cargo) {
    (c.Utterance? && c.turn in s.userTurns) || (c.Question? && s.queued == Some(c.request))
  }

  ghost predicate Pending(s: State, c: Cargo) { Shelved(s, c) || exists id: nat :: Has(s, id, c) }

  predicate Delivered(s: State, c: Cargo) {
    (c.Question? && c.request in s.hist.sent) || (c.Reply? && c.request in s.hist.spoken)
  }

  predicate Stale(s: State, c: Cargo) { (c.Question? || c.Reply?) && c.request.gen < s.gen }

  // ----- where it comes from -----

  /** A fresh provider user turn, of the speech under way or of a generation of its own. */
  predicate Utters(s: State, e: Event, u: UserTurn) {
    && e.EUserTurnCreated? && e.id !in s.claimed && |s.claimed| < MAX_MANAGED_TURNS_PER_SESSION
    && u == UserTurn(e.id, if s.pendingSpeech == Some(s.gen) then s.gen else s.gen + 1)
  }

  /** A device text, or the first transcript of the current generation's user turn. */
  predicate Asks(s: State, e: Event, r: Request) {
    || (e.EDeviceText? && r == Request(s.gen + 1, e.text))
    || (e.EUserTurnDone? && e.doneId.Some? && UserTurn(e.doneId.value, s.gen) in s.userTurns && !s.transcriptHandled
        && e.transcript == Spoken(r.text) && r.gen == s.gen)
  }

  /** The current generation's executor turn completed with something to say. */
  predicate Replies(s: State, e: Event, r: Request) {
    && e.ETurnCompleted? && e.completed && s.turn.Some? && e.completedId == Some(s.turn.value.id)
    && s.turn.value.gen == s.gen && e.answer == Speak(r.text) && r.gen == s.gen
  }

  predicate Makes(s: State, e: Event, c: Cargo) {
    match c
    case Nothing => false
    case Utterance(u) => Utters(s, e, u)
    case Question(r) => Asks(s, e, r)
    case Reply(r) => Replies(s, e, r)
  }

  // ----- where it goes -----

  predicate SameStarts(s: State, t: State) { t.hist.starts == s.hist.starts && t.hist.sent == s.hist.sent }

  predicate SameTakes(s: State, t: State) { t.hist.takes == s.hist.takes && t.hist.spoken == s.hist.spoken }

  /** turn/start or append_speech is called with it, for the current generation. */
  predicate Delivers(s: State, e: Event, t: State, c: Cargo) {
    && e.EResume? && Has(s, e.frame, c) && (c.Question? || c.Reply?) && c.request.gen == s.gen
    && (if c.Question? then
          && SameTakes(s, t) && t.hist.starts == s.hist.starts + [c.request.gen] && t.hist.sent == s.hist.sent + [c.request]
        else
          && SameStarts(s, t) && t.hist.takes == s.hist.takes + [c.request.gen] && t.hist.spoken == s.hist.spoken + [c.request])
  }

  /** The coroutine that has it in hand fails. */
  predicate Abandons(s: State, e: Event, c: Cargo) { e.EAbort? && Has(s, e.frame, c) }

  /** An utterance is over with its user turn, or pushed out of a full table. */
  predicate Forgets(s: State, e: Event, c: Cargo) {
    && c.Utterance?
    && (|| (e.EUserTurnDone? && e.doneId == Some(c.turn.id))
        || (|s.userTurns| >= MAX_USER_TURN_CORRELATIONS && s.userTurns[0] == c.turn && (e.EUserTurnCreated? || e.EResume?)))
  }

  // ----- steps that leave it alone -----

  ghost predicate Same(s: State, t: State) {
    && (forall id: nat | id in t.frames && CargoOf(t.frames[id]) != Nothing :: Has(s, id, CargoOf(t.frames[id])))
    && t.queued == s.queued && t.userTurns == s.userTurns && SameStarts(s, t) && SameTakes(s, t)
    && s.gen <= t.gen
  }

  lemma SameTrans(s: State, t: State, u: State)
    requires Same(s, t) && Same(t, u)
    ensures Same(s, u)
  {}

  lemma AtSame(s: State, g: nat, st: Stage) ensures Same(s, At(s, g, st)) {}

  lemma CancelSame(s: State) ensures Same(s, CancelRender(s)) {}

  lemma BeginSame(s: State, st: Stage) ensures Same(s, BeginGeneration(s, st)) {}

  lemma ClaimSame(s: State, id: TurnId, c: Claim)
    ensures Same(s, ClaimFor(s, id, c)) && Same(s, ClaimTombstone(s, id))
  {}

  lemma CompleteSame(s: State, g: nat) ensures Same(s, Complete(s, g)) {}

  lemma LeaveSame(s: State, id: nat) ensures Same(s, Drop(s, id)) && Same(s, Leave(s, id)) {}

  lemma SpawnSame(s: State, f: Frame) requires CargoOf(f) == Nothing ensures Same(s, Spawn(s, f)) {}

  lemma PutSame(s: State, id: nat, f: Frame)
    requires CargoOf(f) == Nothing || Has(s, id, CargoOf(f))
    ensures Same(s, Put(s, id, f))
  {}

  lemma FlagsSame(s: State, pending: Option<nat>, handled: bool, out: Option<nat>, failed: bool)
    ensures Same(s, s.(pendingSpeech := pending, transcriptHandled := handled, outGen := out, failed := failed))
  {}

  // ----- the accounts of one step -----

  predicate TurnsTable(e: Event) { e.EUserTurnCreated? || e.EUserTurnDone? || e.EResume? }

  predicate TurnsQueue(e: Event) { e.ETurnCompleted? || e.ETombstone? || e.EResume? }

  /** Everything pending was pending before, or this event made it; few events touch the shelves. */
  ghost predicate Sources(s: State, e: Event, t: State) {
    && (forall id: nat | id in t.frames && CargoOf(t.frames[id]) != Nothing ::
          || Has(s, id, CargoOf(t.frames[id])) || Shelved(s, CargoOf(t.frames[id])) || Makes(s, e, CargoOf(t.frames[id])))
    && (t.queued.Some? ==> t.queued == s.queued || (e.EResume? && Has(s, e.frame, Question(t.queued.value))))
    && (forall u | u in t.userTurns :: u in s.userTurns || Utters(s, e, u) || (e.EResume? && Has(s, e.frame, Utterance(u))))
    && (t.userTurns == s.userTurns || TurnsTable(e)) && (t.queued == s.queued || TurnsQueue(e))
    && s.gen <= t.gen
  }

  /** What is sent or spoken was in hand, and of the current generation. */
  ghost predicate Deliveries(s: State, e: Event, t: State) {
    || (SameStarts(s, t) && SameTakes(s, t))
    || (e.EResume? && e.frame in s.frames && Delivers(s, e, t, CargoOf(s.frames[e.frame])))
  }

  lemma SameSources(s: State, e: Event, t: State)
    requires Same(s, t)
    ensures Sources(s, e, t) && Deliveries(s, e, t)
  {}

  lemma SourcesThenSame(s: State, e: Event, t: State, u: State)
    requires Sources(s, e, t) && Deliveries(s, e, t) && Same(t, u)
    ensures Sources(s, e, u) && Deliveries(s, e, u)
  {}

  lemma SpawnSources(s: State, e: Event, s1: State, f: Frame)
    requires Same(s, s1)
    requires CargoOf(f) == Nothing || Makes(s, e, CargoOf(f)) || Shelved(s, CargoOf(f))
    ensures Sources(s, e, Spawn(s1, f)) && Deliveries(s, e, Spawn(s1, f))
  {}

  /** The tombstone shared by the events that begin a generation. */
  lemma TombstoneSources(s: State, e: Event, s1: State, st: Stage, pending: Option<nat>, handled: bool, f: Frame)
    requires Same(s, s1)
    requires CargoOf(f) == Nothing || Makes(s, e, CargoOf(f))
    ensures var t := Spawn(CancelRender(BeginGeneration(s1, st).(pendingSpeech := pending, transcriptHandled := handled)), f);
      Sources(s, e, t) && Deliveries(s, e, t)
  {
    hide Same, Sources, Deliveries, Spawn, CancelRender, BeginGeneration, Makes, CargoOf, Shelved;
    var b := BeginGeneration(s1, st);
    var u := b.(pendingSpeech := pending, transcriptHandled := handled);
    BeginSame(s1, st);
    SameTrans(s, s1, b);
    FlagsSame(b, pending, handled, b.outGen, b.failed);
    SameTrans(s, b, u);
    CancelSame(u);
    SameTrans(s, u, CancelRender(u));
    SpawnSources(s, e, CancelRender(u), f);
  }

  /** The frames and what is shelved, sent and spoken are the same. */
  lemma AllSame(s: State, t: State)
    requires t.frames == s.frames && t.queued == s.queued && t.userTurns == s.userTurns && s.gen <= t.gen
    requires SameStarts(s, t) && SameTakes(s, t)
    ensures Same(s, t)
  {}

  lemma NothingSame(s: State) ensures Same(s, s) && Same(s, s.(failed := true)) {}

  lemma BindSources(s: State, e: Event, s1: State, u: UserTurn)
    requires Same(s, s1) && (Utters(s, e, u) || (e.EResume? && Has(s, e.frame, Utterance(u))))
    ensures Sources(s, e, BindUserTurn(s1, u.id, u.gen)) && Deliveries(s, e, BindUserTurn(s1, u.id, u.gen))
  {}

  lemma UserCreatedSources(s: State, id: TurnId)
    ensures Sources(s, EUserTurnCreated(id), UserTurnCreated(s, id)) && Deliveries(s, EUserTurnCreated(id), UserTurnCreated(s, id))
  {
    hide Same, Sources, Deliveries, Spawn, CancelRender, BeginGeneration, ClaimFor, BindUserTurn;
    var e := EUserTurnCreated(id);
    NothingSame(s);
    if id in s.claimed { SameSources(s, e, s); return; }
    if |s.claimed| >= MAX_MANAGED_TURNS_PER_SESSION { SameSources(s, e, s.(failed := true)); return; }
    if s.pendingSpeech == Some(s.gen) {
      ClaimSame(s, id, User(s.gen));
      var s1 := ClaimFor(s, id, User(s.gen));
      FlagsSame(s1, None, s1.transcriptHandled, s1.outGen, s1.failed);
      SameTrans(s, s1, s1.(pendingSpeech := None));
      BindSources(s, e, s1.(pendingSpeech := None), UserTurn(id, s.gen));
      return;
    }
    ClaimSame(s, id, User(s.gen + 1));
    var s1 := ClaimFor(s, id, User(s.gen + 1));
    var b := BeginGeneration(s1, Carried(s.nextFrame));
    BeginsNext(s1, Carried(s.nextFrame));
    ClaimsKeepGen(s, id, User(s.gen + 1));
    TombstoneSources(s, e, s1, Carried(s.nextFrame), b.pendingSpeech, false,
                     EndThenInterrupt(CurrentOwner(s), Some(UserTurn(id, b.gen))));
  }

  lemma BeginsNext(s: State, st: Stage) ensures BeginGeneration(s, st).gen == s.gen + 1 {}

  lemma ClaimsKeepGen(s: State, id: TurnId, c: Claim) ensures ClaimFor(s, id, c).gen == s.gen {}

  lemma RemovedSources(s: State, e: Event, turns: seq<UserTurn>, handled: bool)
    requires e.EUserTurnDone?
    requires forall u | u in turns :: u in s.userTurns
    ensures var t := s.(userTurns := turns); Sources(s, e, t) && Deliveries(s, e, t)
    ensures var t := s.(userTurns := turns, transcriptHandled := handled); Sources(s, e, t) && Deliveries(s, e, t)
  {}

  lemma DispatchSources(s: State, e: Event, s1: State, id: TurnId, r: Request)
    requires Sources(s, e, s1) && Deliveries(s, e, s1) && Asks(s, e, r)
    ensures Sources(s, e, Dispatch(s1, id, r.gen, r.text)) && Deliveries(s, e, Dispatch(s1, id, r.gen, r.text))
  {
    CancelSame(s1);
    AtSame(CancelRender(s1), r.gen, Carried(s1.nextFrame));
  }

  lemma UserDoneSources(s: State, id: Option<TurnId>, transcript: Transcript)
    ensures var e, t := EUserTurnDone(id, transcript), UserTurnDone(s, id, transcript); Sources(s, e, t) && Deliveries(s, e, t)
  {
    hide Same, Sources, Deliveries, Dispatch, ClaimTombstone;
    var e := EUserTurnDone(id, transcript);
    NothingSame(s);
    if id.None? { SameSources(s, e, s); return; }
    var i := FindUserTurn(s.userTurns, id.value);
    if i == |s.userTurns| { ClaimSame(s, id.value, Tombstone); SameSources(s, e, ClaimTombstone(s, id.value)); return; }
    var u, rest := s.userTurns[i], s.userTurns[..i] + s.userTurns[i + 1..];
    RemovedSources(s, e, rest, true);
    if u.gen == s.gen && !s.transcriptHandled && transcript.Spoken? {
      assert u == UserTurn(id.value, s.gen);
      DispatchSources(s, e, s.(userTurns := rest, transcriptHandled := true), id.value, Request(u.gen, transcript.text));
    }
  }

  lemma SpeechSources(s: State)
    ensures Sources(s, ESpeechStarted, SpeechStarted(s)) && Deliveries(s, ESpeechStarted, SpeechStarted(s))
  {
    hide Same, Sources, Deliveries, Spawn, CancelRender, BeginGeneration;
    NothingSame(s);
    if s.pendingSpeech.Some? { SameSources(s, ESpeechStarted, s); return; }
    TombstoneSources(s, ESpeechStarted, s, Awaited, Some(BeginGeneration(s, Awaited).gen), false,
                     EndThenInterrupt(CurrentOwner(s), None));
  }

  lemma DeviceSources(s: State, text: string)
    ensures var e, t := EDeviceText(text), DeviceText(s, text); Sources(s, e, t) && Deliveries(s, e, t)
    ensures var e, t := EDeviceInterrupt, DeviceInterrupt(s); Sources(s, e, t) && Deliveries(s, e, t)
  {
    hide Same, Sources, Deliveries, Spawn, CancelRender, BeginGeneration;
    NothingSame(s);
    BeginsNext(s, Carried(s.nextFrame));
    TombstoneSources(s, EDeviceText(text), s, Carried(s.nextFrame), None, true, EndThenStart(Request(s.gen + 1, text)));
    TombstoneSources(s, EDeviceInterrupt, s, Unused, None, true, EndThenInterrupt(CurrentOwner(s), None));
  }

  lemma AssistantSame(s: State, id: TurnId, responseId: Option<ResponseId>)
    ensures Same(s, AssistantTurnCreated(s, id)) && Same(s, AssistantTurnDone(s, id, responseId))
  {
    hide Same, ClaimTombstone, AssistantTurnCreated, Spawn, TerminalMatches;
    AssistantCreatedSame(s, id);
    ClaimSame(s, id, Tombstone);
    NothingSame(s);
    SpawnSame(s, EndThenTerminal(id, responseId, s.outGen == Some(s.gen)));
  }

  lemma AssistantCreatedSame(s: State, id: TurnId)
    ensures Same(s, AssistantTurnCreated(s, id))
  {
    hide Same;
    NothingSame(s);
    if id in s.claimed || |s.claimed| >= MAX_MANAGED_TURNS_PER_SESSION { return; }
    ClaimSame(s, id, Tombstone);
    if !StartMatches(s, None, Some(id)) { return; }
    var s1 := MarkStarted(ClaimFor(s, id, Claim.Bound(s.render.value.inc)), None, Some(id));
    var s2 := s1.(hist := s1.hist.(bindings := s1.hist.bindings + [id]));
    StartedRenderSame(s, id);
    hide CancelRender, MarkStarted, ClaimFor;
    AllSame(s1, s2);
    AllSame(s2, s2.(outGen := Some(s.gen)));
    CancelSame(s2);
    SameTrans(s, s1, s2);
    SameTrans(s, s2, AssistantTurnCreated(s, id));
  }

  lemma StartedRenderSame(s: State, id: TurnId)
    requires s.render.Some?
    ensures Same(s, MarkStarted(ClaimFor(s, id, Claim.Bound(s.render.value.inc)), None, Some(id)))
  {}

  lemma OtherSame(s: State, id: Option<TurnId>)
    ensures Same(s, ContextAppended(s)) && Same(s, ToolCall(s, id))
  {
    hide Same;
    AllSame(s, ContextAppended(s));
    AllSame(s, ToolCall(s, id));
  }

  lemma AppendSources(s: State, e: Event, s1: State, g: nat, answer: Answer)
    requires Sources(s, e, s1) && Deliveries(s, e, s1)
    requires g == s1.gen && answer.Speak? ==> Replies(s, e, Request(g, answer.text))
    ensures Sources(s, e, BeginAppend(s1, g, answer)) && Deliveries(s, e, BeginAppend(s1, g, answer))
  {
    if g != s1.gen || !answer.Speak? { return; }
    CancelSame(s1);
    AtSame(CancelRender(s1), g, Answering(s1.nextFrame));
    var s2 := At(CancelRender(s1), g, Answering(s1.nextFrame));
    SameTrans(s1, CancelRender(s1), s2);
    hide CancelRender, At;
    SourcesThenSame(s, e, s1, s2);
  }

  lemma ResumeQueuedSources(s: State, e: Event, s1: State, r: Request)
    requires e.ETurnCompleted? && Sources(s, e, s1) && Deliveries(s, e, s1) && s.queued == Some(r)
    ensures var t := Spawn(At(s1, r.gen, Carried(s1.nextFrame)), StartWait(r)); Sources(s, e, t) && Deliveries(s, e, t)
  {}

  lemma CompletedSources(s: State, id: Option<TurnId>, completed: bool, answer: Answer)
    ensures var e, t := ETurnCompleted(id, completed, answer), TurnCompleted(s, id, completed, answer);
      Sources(s, e, t) && Deliveries(s, e, t)
  {
    var e := ETurnCompleted(id, completed, answer);
    NothingSame(s);
    if Buffered(s, id) || id != ActiveId(s) { SameSources(s, e, s); return; }
    var g, s1 := CurrentOwner(s).gen, s.(turn := None, queued := None);
    assert Sources(s, e, s1) && Deliveries(s, e, s1);
    var s2 := if g.Some? then Complete(s1, g.value) else s1;
    if g.Some? { CompleteSame(s1, g.value); SourcesThenSame(s, e, s1, s2); }
    NothingSame(s2);
    SourcesThenSame(s, e, s2, s2.(failed := true));
    assert s2.gen == s.gen;
    hide Same, Sources, Deliveries, Spawn, At, Complete, BeginAppend;
    if g == Some(s.gen) && !completed { return; }
    var s3 := if g.Some? then BeginAppend(s2, g.value, answer) else s2;
    if g.Some? { AppendSources(s, e, s2, g.value, answer); }
    if s.queued.Some? { ResumeQueuedSources(s, e, s3, s.queued.value); }
  }

  lemma ForcedSame(s: State)
    ensures Same(s, WatchdogExpired(s)) && Same(s, ShutdownInterrupt(s))
  {
    hide Same, Spawn;
    NothingSame(s);
    var b := BeginGeneration(s, Unused);
    if s.turn.Some? {
      var s1 := b.(turn := Some(s.turn.value.(interrupting := true)), turnLock := Some(s.nextFrame));
      AllSame(s, s1);
      SpawnSame(s1, ForcedHold);
      SameTrans(s, s1, Spawn(s1, ForcedHold));
    }
    var s2 := s.(turnLock := Some(s.nextFrame));
    AllSame(s, s2);
    SpawnSame(s2, ForcedHold);
    SameTrans(s, s2, Spawn(s2, ForcedHold));
  }

  lemma ShutdownSources(s: State)
    ensures Sources(s, ETombstone, ShutdownTombstone(s)) && Deliveries(s, ETombstone, ShutdownTombstone(s))
  {}

  lemma StartedSame(s: State, id: nat, turnId: TurnId)
    ensures Same(s, TurnStarted(s, id, turnId))
  {
    hide Same, Put, At;
    NothingSame(s);
    if id !in s.frames || !s.frames[id].StartRpc? { return; }
    var s0, r := s.(starting := false), s.frames[id].request;
    var s1 := Put(s0, id, StartDone);
    AllSame(s, s0);
    PutSame(s0, id, StartDone);
    SameTrans(s, s0, s1);
    var s2 := At(s1, r.gen, if r.gen != s.gen then Over else Running(s.turnCount));
    AtSame(s1, r.gen, if r.gen != s.gen then Over else Running(s.turnCount));
    SameTrans(s, s1, s2);
    var s3 := s2.(turn := Some(Turn(turnId, r.gen, s.turnCount, false, false)), turnCount := s.turnCount + 1);
    AllSame(s2, s3);
    SameTrans(s, s2, s3);
  }

  lemma AbortSame(s: State, id: nat)
    ensures Same(s, Abort(s, id))
  {
    hide Same, Leave;
    NothingSame(s);
    if id !in s.frames { return; }
    LeaveSame(s, id);
    AllSame(Leave(s, id), Abort(s, id));
    SameTrans(s, Leave(s, id), Abort(s, id));
  }

  // ----- resuming -----

  lemma SendSources(s: State, id: nat, r: Request)
    requires Has(s, id, Question(r)) && r.gen == s.gen
    ensures var e, t := EResume(id), SendTurnStart(s, id, r);
      Sources(s, e, t) && Deliveries(s, e, t) && Delivers(s, e, t, Question(r))
  {}

  lemma QueueSources(s: State, id: nat, r: Request)
    requires Has(s, id, Question(r))
    ensures var e, t := EResume(id), Drop(At(s, r.gen, Stage.Queued), id).(queued := Some(r)); Sources(s, e, t) && Deliveries(s, e, t)
  {}

  lemma BargeSame(s: State, id: nat, f: Frame)
    requires s.turn.Some? && Has(s, id, CargoOf(f))
    ensures Same(s, Barge(s, id, f))
  {}

  lemma OccupySources(s: State, id: nat, r: Request)
    requires Has(s, id, Reply(r)) && r.gen == s.gen
    ensures var e, t := EResume(id), OccupySlot(s, id, r);
      Sources(s, e, t) && Deliveries(s, e, t) && Delivers(s, e, t, Reply(r))
  {}

  lemma ResumeTerminalSame(s: State, id: nat, turnId: TurnId, responseId: Option<ResponseId>, owned: bool)
    ensures Same(s, ResumeTerminal(s, id, turnId, responseId, owned))
  {
    hide Same, Drop;
    var s1 := if owned then s.(outGen := None) else s;
    NothingSame(s);
    AllSame(s, s1);
    LeaveSame(s1, id);
    SameTrans(s, s1, Drop(s1, id));
    if TerminalMatches(s1, responseId, Some(turnId)) { RetireSame(s, s1, id); }
  }

  lemma RetireSame(s: State, s1: State, id: nat)
    requires Same(s, s1) && s1.render.Some?
    ensures Same(s, Drop(MaybeRetire(s1.(render := Some(s1.render.value.(terminalSeen := true)))), id))
  {
    hide Same, Drop;
    var s2 := MaybeRetire(s1.(render := Some(s1.render.value.(terminalSeen := true))));
    AllSame(s1, s2);
    SameTrans(s, s1, s2);
    LeaveSame(s2, id);
    SameTrans(s, s2, Drop(s2, id));
  }

  lemma FinishSources(s: State, id: nat, bind: Option<UserTurn>)
    requires bind.Some? ==> Has(s, id, Utterance(bind.value))
    ensures var e, t := EResume(id), FinishInterrupt(s, id, bind); Sources(s, e, t) && Deliveries(s, e, t)
  {
    hide Same, Sources, Deliveries, Leave, BindUserTurn;
    LeaveSame(s, id);
    SameSources(s, EResume(id), Leave(s, id));
    if bind.Some? { BindSources(s, EResume(id), Leave(s, id), bind.value); }
  }

  lemma ResumeSources(s: State, id: nat)
    ensures Sources(s, EResume(id), Resume(s, id)) && Deliveries(s, EResume(id), Resume(s, id))
  {
    hide Same, Sources, Deliveries, FinishInterrupt, Barge, SendTurnStart, ResumeTerminal, OccupySlot, Put, Drop, Leave, At;
    var e := EResume(id);
    NothingSame(s);
    SameSources(s, e, s);
    if id !in s.frames { return; }
    LeaveSame(s, id);
    SameSources(s, e, Leave(s, id));
    SameSources(s, e, Drop(s, id));
    match s.frames[id]
    case EndThenInterrupt(owner, bind) =>
      PutSame(s, id, InterruptWait(owner, bind));
      SameSources(s, e, Put(s, id, InterruptWait(owner, bind)));
    case EndThenStart(r) =>
      PutSame(s, id, StartWait(r));
      SameSources(s, e, Put(s, id, StartWait(r)));
    case EndThenTerminal(turnId, responseId, owned) =>
      ResumeTerminalSame(s, id, turnId, responseId, owned);
      SameSources(s, e, Resume(s, id));
    case EndThenTake(r) => if r.gen == s.gen { OccupySources(s, id, r); }
    case InterruptWait(owner, bind) =>
      FinishSources(s, id, bind);
      if s.turn.Some? {
        BargeSame(s, id, InterruptHold(s.turn.value.inc, bind));
        SameSources(s, e, Barge(s, id, InterruptHold(s.turn.value.inc, bind)));
      }
    case InterruptHold(inc, bind) => FinishSources(s, id, bind);
    case StartWait(r) =>
      if r.gen == s.gen { SendSources(s, id, r); }
      QueueSources(s, id, r);
      if s.turn.Some? {
        BargeSame(s, id, StartInterrupt(r, s.turn.value.inc));
        SameSources(s, e, Barge(s, id, StartInterrupt(r, s.turn.value.inc)));
      }
    case StartInterrupt(r, inc) => if r.gen == s.gen { SendSources(s, id, r); }
    case StartRpc(_) =>
    case StartDone =>
    case ForcedHold =>
    case RenderWait(r, inc) =>
      PutSame(s, id, RenderQuiet(r));
      SameSources(s, e, Put(s, id, RenderQuiet(r)));
    case RenderQuiet(r) =>
      PutSame(s, id, EndThenTake(r));
      SameSources(s, e, Put(s, id, EndThenTake(r)));
    case RenderRpc(_, _) =>
  }

  lemma StepSources(s: State, e: Event)
    ensures Sources(s, e, Step(s, e)) && Deliveries(s, e, Step(s, e))
  {
    hide Same, Sources, Deliveries, ContextAppended, UserTurnCreated, UserTurnDone, SpeechStarted, AssistantTurnCreated,
      AssistantTurnDone, DeviceText, DeviceInterrupt, ToolCall, TurnCompleted, WatchdogExpired, ShutdownTombstone,
      ShutdownInterrupt, Resume, TurnStarted, Abort;
    match e
    case EContextAppended => OtherSame(s, None); SameSources(s, e, Step(s, e));
    case EUserTurnCreated(id) => UserCreatedSources(s, id);
    case EUserTurnDone(id, transcript) => UserDoneSources(s, id, transcript);
    case ESpeechStarted => SpeechSources(s);
    case EAssistantTurnCreated(id) => AssistantSame(s, id, None); SameSources(s, e, Step(s, e));
    case EAssistantTurnDone(id, responseId) => AssistantSame(s, id, responseId); SameSources(s, e, Step(s, e));
    case EDeviceText(text) => DeviceSources(s, text);
    case EDeviceInterrupt => DeviceSources(s, "");
    case EToolCall(id) => OtherSame(s, id); SameSources(s, e, Step(s, e));
    case ETurnCompleted(id, completed, answer) => CompletedSources(s, id, completed, answer);
    case EWatchdogExpired => ForcedSame(s); SameSources(s, e, Step(s, e));
    case ETombstone => ShutdownSources(s);
    case EShutdownInterrupt => ForcedSame(s); SameSources(s, e, Step(s, e));
    case EResume(frame) => ResumeSources(s, frame);
    case ETurnStarted(frame, id) => StartedSame(s, frame, id); SameSources(s, e, Step(s, e));
    case EAbort(frame) => AbortSame(s, frame); SameSources(s, e, Step(s, e));
  }

  // ----- nothing is lost -----

  /** Where a pending thing is after the step. */
  ghost predicate Accounted(s: State, e: Event, c: Cargo) {
    Pending(Step(s, e), c) || Delivers(s, e, Step(s, e), c) || Stale(Step(s, e), c) || Abandons(s, e, c) || Forgets(s, e, c)
  }

  lemma BoundedBind(s: State, u: UserTurn)
    requires |s.userTurns| <= MAX_USER_TURN_CORRELATIONS
    ensures var turns := BindUserTurn(s, u.id, u.gen).userTurns;
      && |turns| <= MAX_USER_TURN_CORRELATIONS && u in turns
      && forall v | v in s.userTurns :: v in turns || (|s.userTurns| == MAX_USER_TURN_CORRELATIONS && v == s.userTurns[0])
  {
    var all := s.userTurns + [u];
    assert all[|all| - 1] == u;
    if |all| > MAX_USER_TURN_CORRELATIONS {
      assert all[1..][|all| - 2] == u;
      forall v | v in s.userTurns && v != s.userTurns[0] ensures v in all[1..] {
        var i :| 0 <= i < |s.userTurns| && s.userTurns[i] == v;
        assert all[1..][i - 1] == v;
      }
    }
  }

  lemma FinishKeepsUtterance(s: State, id: nat, u: UserTurn)
    requires |s.userTurns| <= MAX_USER_TURN_CORRELATIONS
    ensures u in FinishInterrupt(s, id, Some(u)).userTurns
  {
    BoundedBind(Leave(s, id), u);
  }

  lemma PendingIn(s: State, id: nat, c: Cargo)
    requires Has(s, id, c)
    ensures Pending(s, c)
  {}

  lemma ResumedUtterance(s: State, id: nat, u: UserTurn)
    requires Has(s, id, Utterance(u)) && |s.userTurns| <= MAX_USER_TURN_CORRELATIONS
    ensures Has(Resume(s, id), id, Utterance(u)) || u in Resume(s, id).userTurns
  {
    hide FinishInterrupt;
    FinishKeepsUtterance(s, id, u);
  }

  lemma ResumedQuestion(s: State, id: nat, r: Request)
    requires Has(s, id, Question(r)) && r.gen <= s.gen
    ensures var t := Resume(s, id);
      Has(t, id, Question(r)) || t.queued == Some(r) || r.gen < t.gen || Delivers(s, EResume(id), t, Question(r))
  {
    hide SendTurnStart, Delivers, Sources, Deliveries;
    if r.gen == s.gen { SendSources(s, id, r); }
  }

  lemma ResumedReply(s: State, id: nat, r: Request)
    requires Has(s, id, Reply(r)) && r.gen <= s.gen
    ensures var t := Resume(s, id);
      Has(t, id, Reply(r)) || r.gen < t.gen || Delivers(s, EResume(id), t, Reply(r))
  {
    hide OccupySlot, Delivers, Sources, Deliveries;
    if r.gen == s.gen { OccupySources(s, id, r); }
  }

  /** What the invariant says of a coroutine with something in hand. */
  lemma CargoIsKnown(s: State, id: nat)
    requires Inv(s) && id in s.frames && CargoOf(s.frames[id]) != Nothing
    ensures id < s.nextFrame && !s.frames[id].StartRpc?
    ensures var c := CargoOf(s.frames[id]); c.Question? || c.Reply? ==> c.request.gen <= s.gen
  {
    assert FrameOk(s, id, s.frames[id]);
  }

  lemma InHandAccounted(s: State, e: Event, id: nat, c: Cargo)
    requires Inv(s) && Has(s, id, c) && c != Nothing && |s.userTurns| <= MAX_USER_TURN_CORRELATIONS
    ensures Accounted(s, e, c)
  {
    hide Step, Inv, Forgets, Delivers;
    CargoIsKnown(s, id);
    if !Touches(e, id) {
      StepLater(s, e, id);
      PendingIn(Step(s, e), id, c);
    } else if e.EResume? {
      ResumeIsStep(s, id);
      match c
      case Utterance(u) => ResumedUtterance(s, id, u);
      case Question(r) => ResumedQuestion(s, id, r);
      case Reply(r) => ResumedReply(s, id, r);
    }
  }

  lemma ResumeIsStep(s: State, id: nat) ensures Step(s, EResume(id)) == Resume(s, id) {}

  // ----- the shelves -----

  lemma CreatedTable(s: State, id: TurnId)
    requires |s.userTurns| <= MAX_USER_TURN_CORRELATIONS
    ensures var turns := UserTurnCreated(s, id).userTurns;
      && |turns| <= MAX_USER_TURN_CORRELATIONS
      && forall v | v in s.userTurns :: v in turns || (|s.userTurns| == MAX_USER_TURN_CORRELATIONS && v == s.userTurns[0])
  {
    if id in s.claimed || |s.claimed| >= MAX_MANAGED_TURNS_PER_SESSION { return; }
    if s.pendingSpeech == Some(s.gen) {
      BoundedBind(ClaimFor(s, id, User(s.gen)).(pendingSpeech := None), UserTurn(id, s.gen));
    }
  }

  lemma DispatchTable(s: State, id: TurnId, g: nat, text: string)
    ensures Dispatch(s, id, g, text).userTurns == s.userTurns && Dispatch(s, id, g, text).queued == s.queued
  {}

  lemma DoneTable(s: State, id: Option<TurnId>, transcript: Transcript)
    ensures var turns := UserTurnDone(s, id, transcript).userTurns;
      && |turns| <= |s.userTurns| && forall v | v in s.userTurns :: v in turns || id == Some(v.id)
  {
    if id.None? { return; }
    hide ClaimTombstone, Dispatch;
    var i := FindUserTurn(s.userTurns, id.value);
    if i == |s.userTurns| { ClaimSame(s, id.value, Tombstone); return; }
    DispatchTable(s.(userTurns := s.userTurns[..i] + s.userTurns[i + 1..], transcriptHandled := true), id.value,
                  s.userTurns[i].gen, if transcript.Spoken? then transcript.text else "");
  }

  lemma FinishTable(s: State, id: nat, bind: Option<UserTurn>)
    requires |s.userTurns| <= MAX_USER_TURN_CORRELATIONS
    ensures var turns := FinishInterrupt(s, id, bind).userTurns;
      && |turns| <= MAX_USER_TURN_CORRELATIONS
      && forall v | v in s.userTurns :: v in turns || (|s.userTurns| == MAX_USER_TURN_CORRELATIONS && v == s.userTurns[0])
    ensures FinishInterrupt(s, id, bind).queued == s.queued
  {
    if bind.Some? { BoundedBind(Leave(s, id), bind.value); }
  }

  lemma ResumedTable(s: State, id: nat)
    requires |s.userTurns| <= MAX_USER_TURN_CORRELATIONS
    ensures var turns := Resume(s, id).userTurns;
      && |turns| <= MAX_USER_TURN_CORRELATIONS
      && forall v | v in s.userTurns :: v in turns || (|s.userTurns| == MAX_USER_TURN_CORRELATIONS && v == s.userTurns[0])
  {
    hide FinishInterrupt, TerminalMatches;
    if id !in s.frames { return; }
    if s.frames[id].EndThenTerminal? {
      ResumeTerminalSame(s, id, s.frames[id].id, s.frames[id].responseId, s.frames[id].owned);
      return;
    }
    if HasBind(s.frames[id]) { FinishTable(s, id, s.frames[id].bind); return; }
  }

  lemma TableAccounted(s: State, e: Event, u: UserTurn)
    requires u in s.userTurns && |s.userTurns| <= MAX_USER_TURN_CORRELATIONS
    ensures u in Step(s, e).userTurns || Forgets(s, e, Utterance(u))
    ensures |Step(s, e).userTurns| <= MAX_USER_TURN_CORRELATIONS
  {
    hide Deliveries, UserTurnCreated, UserTurnDone, Resume;
    StepSources(s, e);
    if e.EUserTurnCreated? { CreatedTable(s, e.id); }
    else if e.EUserTurnDone? { DoneTable(s, e.doneId, e.transcript); }
    else if e.EResume? { ResumedTable(s, e.frame); }
  }

  /** A request resumed past the queue supersedes what is in it. */
  lemma ResumedQueue(s: State, id: nat, r: Request)
    requires Inv(s) && s.queued == Some(r)
    ensures Resume(s, id).queued == Some(r) || r.gen < s.gen
  {
    hide FinishInterrupt, TerminalMatches, Lock, Turns, Slot, Gate, Claims;
    if id !in s.frames { return; }
    var f := s.frames[id];
    assert FrameOk(s, id, f);
    if f.EndThenTerminal? { ResumeTerminalSame(s, id, f.id, f.responseId, f.owned); return; }
    if HasBind(f) { FinishKeepsQueue(s, id, f.bind); return; }
    if !f.StartWait? && !f.StartInterrupt? { return; }
  }

  lemma FinishKeepsQueue(s: State, id: nat, bind: Option<UserTurn>)
    ensures FinishInterrupt(s, id, bind).queued == s.queued
  {}

  lemma CompletedQueue(s: State, e: Event, r: Request)
    requires Inv(s) && s.queued == Some(r) && e.ETurnCompleted?
    ensures Pending(Step(s, e), Question(r)) || r.gen < s.gen
  {
    if Buffered(s, e.completedId) || e.completedId != ActiveId(s) || r.gen < s.gen { return; }
    QueuedRunsIffCurrent(s, e.completed, e.answer);
    hide TurnCompleted, Inv;
    PendingIn(Step(s, e), s.nextFrame, Question(r));
  }

  lemma QueueAccounted(s: State, e: Event, r: Request)
    requires Inv(s) && s.queued == Some(r)
    ensures Pending(Step(s, e), Question(r)) || r.gen < Step(s, e).gen
  {
    hide Deliveries, Resume, TurnCompleted, Inv;
    StepSources(s, e);
    if e.EResume? { ResumedQueue(s, e.frame, r); }
    else if e.ETurnCompleted? { CompletedQueue(s, e, r); }
    else if e.ETombstone? { QueueIsKnown(s, r); }
  }

  lemma QueueIsKnown(s: State, r: Request)
    requires Inv(s) && s.queued == Some(r)
    ensures r.gen <= s.gen
  {}

  /** The account of one step: nothing pending disappears without a reason. */
  lemma StepConserves(s: State, e: Event, c: Cargo)
    requires Inv(s) && |s.userTurns| <= MAX_USER_TURN_CORRELATIONS && c != Nothing && Pending(s, c)
    ensures Accounted(s, e, c)
  {
    hide Step, Inv, Delivers, Forgets;
    if id: nat :| Has(s, id, c) {
      InHandAccounted(s, e, id, c);
    } else if c.Utterance? {
      TableAccounted(s, e, c.turn);
    } else {
      QueueAccounted(s, e, c.request);
    }
  }

  // ----- what is made is pending -----

  lemma MadeIsPending(s: State, e: Event, c: Cargo)
    requires Makes(s, e, c) && |s.userTurns| <= MAX_USER_TURN_CORRELATIONS
    requires forall i, j :: 0 <= i < j < |s.userTurns| ==> s.userTurns[i].id != s.userTurns[j].id
    ensures Pending(Step(s, e), c)
  {
    match c
    case Utterance(u) => UtteredIsPending(s, e.id, u);
    case Question(r) => AskedIsPending(s, e, r);
    case Reply(r) => RepliedIsPending(s, e, r);
  }

  lemma UtteredIsPending(s: State, id: TurnId, u: UserTurn)
    requires Utters(s, EUserTurnCreated(id), u) && |s.userTurns| <= MAX_USER_TURN_CORRELATIONS
    ensures Pending(UserTurnCreated(s, id), Utterance(u))
  {
    if s.pendingSpeech == Some(s.gen) {
      BoundedBind(ClaimFor(s, id, User(s.gen)).(pendingSpeech := None), u);
    } else {
      CancelKeepsFrames(BeginGeneration(ClaimFor(s, id, User(s.gen + 1)), Carried(s.nextFrame)).(transcriptHandled := false));
      PendingIn(UserTurnCreated(s, id), s.nextFrame, Utterance(u));
    }
  }

  lemma CancelKeepsFrames(s: State)
    ensures CancelRender(s).nextFrame == s.nextFrame && CancelRender(s).gen == s.gen
  {}

  lemma FoundTurn(turns: seq<UserTurn>, u: UserTurn)
    requires u in turns && forall i, j :: 0 <= i < j < |turns| ==> turns[i].id != turns[j].id
    ensures var i := FindUserTurn(turns, u.id); i < |turns| && turns[i] == u
  {
    var k :| 0 <= k < |turns| && turns[k] == u;
  }

  lemma AskedIsPending(s: State, e: Event, r: Request)
    requires Asks(s, e, r)
    requires forall i, j :: 0 <= i < j < |s.userTurns| ==> s.userTurns[i].id != s.userTurns[j].id
    ensures Pending(Step(s, e), Question(r))
  {
    if e.EDeviceText? {
      CancelKeepsFrames(BeginGeneration(s, Carried(s.nextFrame)).(pendingSpeech := None, transcriptHandled := true));
    } else {
      FoundTurn(s.userTurns, UserTurn(e.doneId.value, s.gen));
      hide FindUserTurn;
    }
    PendingIn(Step(s, e), s.nextFrame, Question(r));
  }

  lemma RepliedIsPending(s: State, e: Event, r: Request)
    requires Replies(s, e, r)
    ensures Pending(Step(s, e), Reply(r))
  {
    var s2 := Complete(s.(turn := None, queued := None), r.gen);
    AppendHolds(s2, r);
    hide BeginAppend, Complete;
    assert s2.gen == s.gen && s2.nextFrame == s.nextFrame by { CompleteKeepsCounts(s.(turn := None, queued := None), r.gen); }
    PendingIn(Step(s, e), s.nextFrame, Reply(r));
  }

  lemma CompleteKeepsCounts(s: State, g: nat)
    ensures Complete(s, g).gen == s.gen && Complete(s, g).nextFrame == s.nextFrame
  {}

  lemma AppendHolds(s: State, r: Request)
    requires r.gen == s.gen
    ensures var t := BeginAppend(s, r.gen, Speak(r.text));
      Has(t, s.nextFrame, Reply(r)) && t.nextFrame == s.nextFrame + 1 && t.gen == s.gen
  {}

  // ----- whole runs -----

  ghost predicate MadeIn(events: seq<Event>, c: Cargo) {
    exists k: nat :: k < |events| && Makes(Reached(events[..k]), events[k], c)
  }

  ghost predicate AbandonedIn(events: seq<Event>, c: Cargo) {
    exists k: nat :: k < |events| && Abandons(Reached(events[..k]), events[k], c)
  }

  ghost predicate ForgottenIn(events: seq<Event>, c: Cargo) {
    exists k: nat :: k < |events| && Forgets(Reached(events[..k]), events[k], c)
  }

  lemma {:induction false} TableIsBounded(events: seq<Event>)
    ensures |Reached(events).userTurns| <= MAX_USER_TURN_CORRELATIONS
  {
    hide Step;
    if events == [] { return; }
    var s, e := Reached(events[..|events| - 1]), events[|events| - 1];
    TableIsBounded(events[..|events| - 1]);
    TableSize(s, e);
  }

  lemma TableSize(s: State, e: Event)
    requires |s.userTurns| <= MAX_USER_TURN_CORRELATIONS
    ensures |Step(s, e).userTurns| <= MAX_USER_TURN_CORRELATIONS
  {
    hide Deliveries, UserTurnCreated, UserTurnDone, Resume;
    StepSources(s, e);
    if e.EUserTurnCreated? { CreatedTable(s, e.id); }
    else if e.EUserTurnDone? { DoneTable(s, e.doneId, e.transcript); }
    else if e.EResume? { ResumedTable(s, e.frame); }
  }

  /** Whatever happened in a front of the run happened in the run. */
  lemma FrontHappened(events: seq<Event>, c: Cargo)
    requires events != []
    ensures var front := events[..|events| - 1];
      && (MadeIn(front, c) ==> MadeIn(events, c)) && (AbandonedIn(front, c) ==> AbandonedIn(events, c))
      && (ForgottenIn(front, c) ==> ForgottenIn(events, c))
    ensures var s, e := Reached(events[..|events| - 1]), events[|events| - 1];
      && (Makes(s, e, c) ==> MadeIn(events, c)) && (Abandons(s, e, c) ==> AbandonedIn(events, c))
      && (Forgets(s, e, c) ==> ForgottenIn(events, c))
  {
    hide Reached, Makes, Abandons, Forgets;
    var front := events[..|events| - 1];
    assert forall k: nat | k < |front| :: events[..k] == front[..k] && events[k] == front[k];
  }

  lemma LastMade(events: seq<Event>, c: Cargo)
    requires events != [] && MadeIn(events, c)
    ensures MadeIn(events[..|events| - 1], c) || Makes(Reached(events[..|events| - 1]), events[|events| - 1], c)
  {
    hide Reached, Makes;
    var front := events[..|events| - 1];
    var k: nat :| k < |events| && Makes(Reached(events[..k]), events[k], c);
    if k < |front| { assert front[..k] == events[..k]; }
  }

  ghost predicate Fate(events: seq<Event>, c: Cargo) {
    var s := Reached(events);
    Pending(s, c) || Delivered(s, c) || Stale(s, c) || AbandonedIn(events, c) || ForgottenIn(events, c)
  }

  /**
   Nothing made is lost. In every run, a request made from a transcript or a device text has been sent by
   turn/start with its text, or waits in one coroutine or the queue, unless a newer generation superseded it or
   its coroutine failed; the same of an answer and append_speech; and an utterance waits for its transcript until
   its user turn ends, unless its coroutine failed or sixty-four others pushed it out of the table.
   */
  lemma {:induction false} NothingIsLost(events: seq<Event>, c: Cargo)
    requires MadeIn(events, c)
    ensures Fate(events, c)
  {
    hide Step, Reached, Inv, Makes, Abandons, Forgets, Pending, Delivered, Stale, MadeIn, AbandonedIn, ForgottenIn;
    if events == [] { NothingMade(c); return; }
    var front := events[..|events| - 1];
    var s, e := Reached(front), events[|events| - 1];
    ReachedKeeps(front);
    TableIsBounded(front);
    LastStep(events);
    FrontHappened(events, c);
    LastMade(events, c);
    if Makes(s, e, c) { TableIsDistinct(s); MadeIsPending(s, e, c); return; }
    NothingIsLost(front, c);
    FateStep(s, e, c);
    if Pending(s, c) { NothingIsNothing(s, c, front); StepConserves(s, e, c); DeliversIt(s, e, c); }
  }

  lemma NothingMade(c: Cargo) ensures !MadeIn([], c) {}

  lemma LastStep(events: seq<Event>)
    requires events != []
    ensures Reached(events) == Step(Reached(events[..|events| - 1]), events[|events| - 1])
  {
    hide Step;
  }

  lemma TableIsDistinct(s: State)
    requires Inv(s)
    ensures forall i, j :: 0 <= i < j < |s.userTurns| ==> s.userTurns[i].id != s.userTurns[j].id
  {}

  lemma NothingIsNothing(s: State, c: Cargo, events: seq<Event>)
    requires MadeIn(events, c)
    ensures c != Nothing
  {}

  /** What was sent, spoken or superseded stays so. */
  lemma FateStep(s: State, e: Event, c: Cargo)
    ensures Delivered(s, c) ==> Delivered(Step(s, e), c)
    ensures Stale(s, c) ==> Stale(Step(s, e), c)
  {
    hide Step;
    StepSources(s, e);
  }

  lemma DeliversIt(s: State, e: Event, c: Cargo)
    ensures Delivers(s, e, Step(s, e), c) ==> Delivered(Step(s, e), c)
  {
    hide Step;
    if Delivers(s, e, Step(s, e), c) {
      if c.Question? { assert (s.hist.sent + [c.request])[|s.hist.sent|] == c.request; }
      else { assert (s.hist.spoken + [c.request])[|s.hist.spoken|] == c.request; }
    }
  }

  lemma StepInvents(s: State, e: Event, c: Cargo)
    requires c != Nothing
    ensures Pending(Step(s, e), c) ==> Pending(s, c) || Makes(s, e, c)
    ensures Delivered(Step(s, e), c) ==> Delivered(s, c) || Pending(s, c)
  {
    hide Step;
    StepSources(s, e);
    if Delivered(Step(s, e), c) && !Delivered(s, c) {
      var d := CargoOf(s.frames[e.frame]);
      assert c == d;
      PendingIn(s, e.frame, c);
    }
  }

  /** Nothing is invented: what waits, was sent or was spoken was made by an event of the run, word for word. */
  lemma {:induction false} NothingIsInvented(events: seq<Event>, c: Cargo)
    requires c != Nothing && (Pending(Reached(events), c) || Delivered(Reached(events), c))
    ensures MadeIn(events, c)
  {
    hide Step, Reached, Makes, Abandons, Forgets, Pending, Delivered, MadeIn;
    if events == [] { FreshHasNothing(c); return; }
    var front := events[..|events| - 1];
    LastStep(events);
    FrontHappened(events, c);
    StepInvents(Reached(front), events[|events| - 1], c);
    if Pending(Reached(front), c) || Delivered(Reached(front), c) { NothingIsInvented(front, c); }
  }

  lemma FreshHasNothing(c: Cargo)
    requires c != Nothing
    ensures !Pending(Reached([]), c) && !Delivered(Reached([]), c)
  {}

  // ----- one place for each -----

  function GenOf(c: Cargo): nat
    requires c != Nothing
  {
    if c.Utterance? then c.turn.gen else c.request.gen
  }

  predicate SameKind(c: Cargo, d: Cargo) {
    (c.Utterance? && d.Utterance?) || (c.Question? && d.Question?) || (c.Reply? && d.Reply?)
  }

  /** The two histories of generations are those of the requests and answers recorded beside them. */
  ghost predicate Recorded(s: State) {
    && |s.hist.sent| == |s.hist.starts| && (forall i :: 0 <= i < |s.hist.sent| ==> s.hist.sent[i].gen == s.hist.starts[i])
    && |s.hist.spoken| == |s.hist.takes| && (forall i :: 0 <= i < |s.hist.spoken| ==> s.hist.spoken[i].gen == s.hist.takes[i])
  }

  lemma StepRecords(s: State, e: Event)
    requires Recorded(s)
    ensures Recorded(Step(s, e))
  {
    hide Step, Sources;
    StepSources(s, e);
  }

  lemma {:induction false} ReachedRecords(events: seq<Event>)
    ensures Recorded(Reached(events))
  {
    hide Step, Recorded;
    if events == [] { FreshRecords(); return; }
    ReachedRecords(events[..|events| - 1]);
    StepRecords(Reached(events[..|events| - 1]), events[|events| - 1]);
  }

  lemma FreshRecords() ensures Recorded(Init()) {}

  /** The stage of a generation says where its cargo is. */
  lemma PlaceIsStage(s: State, c: Cargo)
    requires Inv(s) && c != Nothing
    ensures forall id: nat | Has(s, id, c) :: StageIs(s, GenOf(c), if c.Reply? then Answering(id) else Carried(id))
    ensures Shelved(s, c) ==> StageIs(s, GenOf(c), if c.Utterance? then Stage.Bound(c.turn.id) else Stage.Queued)
  {
    forall id: nat | Has(s, id, c) ensures StageIs(s, GenOf(c), if c.Reply? then Answering(id) else Carried(id)) {
      assert FrameOk(s, id, s.frames[id]);
    }
  }

  lemma DeliveredIsStage(s: State, c: Cargo)
    requires Inv(s) && Recorded(s) && Delivered(s, c)
    ensures GenOf(c) in s.hist.stage
    ensures if c.Question? then Sent(s.hist.stage[GenOf(c)]) else s.hist.stage[GenOf(c)].Rendered?
  {
    if c.Question? {
      var i :| 0 <= i < |s.hist.sent| && s.hist.sent[i] == c.request;
      assert s.hist.starts[i] in s.hist.starts;
    } else {
      var i :| 0 <= i < |s.hist.spoken| && s.hist.spoken[i] == c.request;
      assert s.hist.takes[i] in s.hist.takes;
    }
  }

  lemma DeliveredOnce(s: State, c: Cargo, d: Cargo)
    requires Inv(s) && Recorded(s) && Delivered(s, c) && Delivered(s, d) && SameKind(c, d) && GenOf(c) == GenOf(d)
    ensures c == d
  {
    if c.Question? {
      var i :| 0 <= i < |s.hist.sent| && s.hist.sent[i] == c.request;
      var j :| 0 <= j < |s.hist.sent| && s.hist.sent[j] == d.request;
      assert s.hist.starts[i] == s.hist.starts[j];
    } else {
      var i :| 0 <= i < |s.hist.spoken| && s.hist.spoken[i] == c.request;
      var j :| 0 <= j < |s.hist.spoken| && s.hist.spoken[j] == d.request;
      assert s.hist.takes[i] == s.hist.takes[j];
    }
  }

  /**
   Each is in one place. A generation has one utterance, request or answer waiting, in one coroutine or on its
   shelf, never in two; once its request was sent, or its answer spoken, no other of its kind waits or follows.
   */
  lemma EachInOnePlace(events: seq<Event>, c: Cargo, d: Cargo)
    requires c != Nothing && d != Nothing && GenOf(c) == GenOf(d)
    ensures var s := Reached(events);
      && (Pending(s, c) && Pending(s, d) ==> c == d)
      && (forall i: nat, j: nat :: Has(s, i, c) && Has(s, j, c) ==> i == j)
      && (forall i: nat :: Has(s, i, c) ==> !Shelved(s, c))
      && (SameKind(c, d) && Delivered(s, c) ==> !Pending(s, d) && (Delivered(s, d) ==> c == d))
      && Distinct(s.hist.sent) && Distinct(s.hist.spoken)
  {
    var s := Reached(events);
    hide Reached, Inv, Recorded;
    ReachedKeeps(events);
    ReachedRecords(events);
    PlaceIsStage(s, c);
    PlaceIsStage(s, d);
    RecordedOnce(s);
    if SameKind(c, d) && Delivered(s, c) {
      DeliveredIsStage(s, c);
      if Delivered(s, d) { DeliveredOnce(s, c, d); }
    }
  }

  lemma RecordedOnce(s: State)
    requires Inv(s) && Recorded(s)
    ensures Distinct(s.hist.sent) && Distinct(s.hist.spoken)
  {
    forall i, j | 0 <= i < j < |s.hist.sent| ensures s.hist.sent[i] != s.hist.sent[j] {
      assert s.hist.starts[i] != s.hist.starts[j];
    }
    forall i, j | 0 <= i < j < |s.hist.spoken| ensures s.hist.spoken[i] != s.hist.spoken[j] {
      assert s.hist.takes[i] != s.hist.takes[j];
    }
  }
}
