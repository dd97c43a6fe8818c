/** The joint inductive invariant of the managed socket's control plane. */
module ManagedInvariant {
  import opened Wrappers
  import opened ManagedControl

  ghost predicate Distinct<T(!new)>(xs: seq<T>) {
    forall i, j :: 0 <= i < j < |xs| ==> xs[i] != xs[j]
  }

  /** `turn/start` has been sent for a generation in one of these stages. */
  predicate Sent(st: Stage) {
    st.Starting? || st.Running? || st.Answering? || st.Rendered? || st.Over?
  }

  /** The executor turn of a generation in one of these stages is over. */
  predicate Done(st: Stage) { st.Over? || st.Answering? || st.Rendered? }

  predicate StageIs(s: State, g: nat, st: Stage) { g in s.hist.stage && s.hist.stage[g] == st }

  predicate ClaimIs(s: State, id: TurnId, c: Claim) { id in s.hist.claims && s.hist.claims[id] == c }

  predicate HoldsLock(f: Frame) {
    f.StartInterrupt? || f.StartRpc? || f.StartDone? || f.InterruptHold? || f.ForcedHold?
  }

  predicate HasRequest(f: Frame) {
    f.EndThenStart? || f.StartWait? || f.StartInterrupt? || f.StartRpc? || IsAnswer(f)
  }

  predicate IsAnswer(f: Frame) { f.RenderWait? || f.RenderQuiet? || f.EndThenTake? }

  predicate HasBind(f: Frame) { f.EndThenInterrupt? || f.InterruptWait? || f.InterruptHold? }

  function RequestStage(f: Frame, id: nat): Stage {
    if f.StartRpc? then Starting(id) else if IsAnswer(f) then Answering(id) else Carried(id)
  }

  /** What a suspended coroutine may rely on when it resumes. */
  ghost predicate FrameOk(s: State, id: nat, f: Frame) {
    && (HasRequest(f) ==> StageIs(s, f.request.gen, RequestStage(f, id)))
    && (HasBind(f) && f.bind.Some? ==>
          StageIs(s, f.bind.value.gen, Carried(id)) && ClaimIs(s, f.bind.value.id, User(f.bind.value.gen)))
    && (IsAnswer(f) && f.request.gen == s.gen && s.render.Some? ==> f.RenderWait? && s.render.value.inc == f.inc)
    && ((f.InterruptHold? || f.StartInterrupt?) && s.turn.Some? ==> s.turn.value.inc == f.inc)
    && (f.StartRpc? ==> s.turn.None? && s.starting)
    && (f.EndThenTerminal? ==> f.id in s.claimed)
    && (f.EndThenTerminal? && !f.owned && s.render.Some? && s.render.value.turnId == Some(f.id) ==> s.outGen.None?)
  }

  ghost predicate Frames(s: State) {
    && (forall id | id in s.frames :: id < s.nextFrame && FrameOk(s, id, s.frames[id]))
    && (forall g | g in s.hist.stage :: g <= s.gen)
  }

  ghost predicate Lock(s: State) {
    && (forall id | id in s.frames :: HoldsLock(s.frames[id]) <==> s.turnLock == Some(id))
    && (s.turnLock.Some? ==> s.turnLock.value in s.frames)
    && (s.starting ==> s.turnLock.Some? && s.frames[s.turnLock.value].StartRpc?)
  }

  /** A generation's request is in one place, and `turn/start` is sent for it at most once. */
  ghost predicate Requests(s: State) {
    && (s.pendingSpeech.Some? ==> StageIs(s, s.pendingSpeech.value, Awaited))
    && (s.queued.Some? ==> StageIs(s, s.queued.value.gen, Stage.Queued))
    && (forall u | u in s.userTurns :: StageIs(s, u.gen, Stage.Bound(u.id)) && ClaimIs(s, u.id, User(u.gen)))
    && (forall i, j :: 0 <= i < j < |s.userTurns| ==> s.userTurns[i].id != s.userTurns[j].id)
    && (forall g | g in s.hist.starts :: g in s.hist.stage && Sent(s.hist.stage[g]))
    && Distinct(s.hist.starts)
  }

  ghost predicate Turns(s: State) {
    && (s.turn.Some? ==>
          var t := s.turn.value;
          && t.inc < s.turnCount && StageIs(s, t.gen, Running(t.inc))
          && (t.hadTool <==> t.inc in s.hist.toolTurns)
          && (t.inc in s.hist.barged ==> t.interrupting))
    && (forall i | i in s.hist.toolTurns :: i < s.turnCount && i !in s.hist.barged)
    && (forall i | i in s.hist.barged :: i < s.turnCount)
    && (s.queued.Some? ==> s.turn.Some? && s.turn.value.hadTool && s.turn.value.gen < s.queued.value.gen)
    && (forall g | g in s.hist.completions :: g in s.hist.stage && Done(s.hist.stage[g]))
    && Distinct(s.hist.completions)
  }

  ghost predicate Slot(s: State) {
    && (s.render.Some? ==>
          var r := s.render.value;
          && r.inc < s.renderCount && StageIs(s, r.gen, Rendered(r.inc))
          && !r.terminalSeen
          && (r.started <==> r.turnId.Some?)
          && r.responseId.None?
          && (r.started ==> r.ack)
          && (r.turnId.Some? ==> r.turnId.value in s.claimed))
    && (forall g | g in s.hist.takes :: g in s.hist.stage && s.hist.stage[g].Rendered?)
    && Distinct(s.hist.takes)
  }

  /** Output is authorized only for the current generation's acknowledged, started render. */
  ghost predicate Gate(s: State) {
    && (s.outGen.Some? ==> s.outGen.value == s.gen)
    && (s.outGen.Some? && s.gen !in s.hist.failedRenders ==>
          s.render.Some? && s.render.value.gen == s.gen && s.render.value.ack && s.render.value.started)
  }

  /** A provider turn id is claimed once, and used for one thing. */
  ghost predicate Claims(s: State) {
    && s.hist.claims.Keys == s.claimed
    && (forall id | id in s.hist.dispatches :: ClaimIs(s, id, Dispatched))
    && (forall id | id in s.hist.bindings :: id in s.hist.claims && s.hist.claims[id].Bound?)
    && Distinct(s.hist.dispatches) && Distinct(s.hist.bindings)
  }

  ghost predicate Inv(s: State) {
    Frames(s) && Lock(s) && Requests(s) && Turns(s) && Slot(s) && Gate(s) && Claims(s)
  }

  lemma InitInv() ensures Inv(Init()) {}

  // ----- how the building blocks keep the invariant -----

  predicate Carries(f: Frame, g: nat) {
    (HasRequest(f) && f.request.gen == g) || (HasBind(f) && f.bind.Some? && f.bind.value.gen == g)
  }

  /** Nothing in the state refers to the request of generation `g`. */
  ghost predicate Unheld(s: State, g: nat) {
    && s.pendingSpeech != Some(g)
    && (s.queued.Some? ==> s.queued.value.gen != g)
    && (forall u | u in s.userTurns :: u.gen != g)
    && (s.turn.Some? ==> s.turn.value.gen != g)
    && (s.render.Some? ==> s.render.value.gen != g)
    && (forall id | id in s.frames :: !Carries(s.frames[id], g))
  }

  /** No turn has been started for generation `g`. */
  ghost predicate Fresh(s: State, g: nat) {
    g !in s.hist.starts && g !in s.hist.takes && g !in s.hist.completions
  }

  lemma BeginGenerationFrames(s: State, st: Stage)
    requires Frames(s) && Lock(s)
    ensures Frames(BeginGeneration(s, st)) && Lock(BeginGeneration(s, st))
  {}

  lemma BeginGenerationRest(s: State, st: Stage)
    requires (forall g | g in s.hist.stage :: g <= s.gen) && Requests(s) && Turns(s) && Slot(s) && Gate(s) && Claims(s)
    ensures var t := BeginGeneration(s, st); Requests(t) && Turns(t) && Slot(t) && Gate(t) && Claims(t)
  {
    hide Distinct;
  }

  /** Everything held belongs to a generation already begun. */
  lemma NextGenerationIsUnheld(s: State, st: Stage)
    requires Inv(s)
    ensures Unheld(BeginGeneration(s, st), s.gen + 1) && forall g | g in s.hist.stage :: g <= s.gen
  {
    assert forall id | id in s.frames :: FrameOk(s, id, s.frames[id]);
  }

  lemma BeginGenerationKeeps(s: State, st: Stage)
    requires Inv(s)
    ensures Inv(BeginGeneration(s, st)) && Unheld(BeginGeneration(s, st), s.gen + 1)
  {
    hide Frames, Lock, Requests, Turns, Slot, Gate, Claims, Unheld, BeginGeneration;
    NextGenerationIsUnheld(s, st);
    BeginGenerationFrames(s, st);
    BeginGenerationRest(s, st);
  }

  lemma SpeechFlagsKeep(s: State, pending: Option<nat>, handled: bool)
    requires Inv(s) && (pending.Some? ==> StageIs(s, pending.value, Awaited))
    ensures Inv(s.(pendingSpeech := pending, transcriptHandled := handled))
  {}

  lemma FailKeeps(s: State)
    requires Inv(s)
    ensures Inv(s.(failed := true))
  {}

  lemma CancelRenderKeeps(s: State)
    requires Inv(s)
    ensures Inv(CancelRender(s))
  {
    if s.render.None? || !s.render.value.started { return; }
  }

  lemma ClaimKeeps(s: State, id: TurnId, c: Claim)
    requires Inv(s) && id !in s.claimed
    ensures Inv(ClaimFor(s, id, c))
  {}

  lemma ClaimTombstoneKeeps(s: State, id: TurnId)
    requires Inv(s)
    ensures Inv(ClaimTombstone(s, id))
  {
    hide Frames, Lock, Requests, Turns, Slot, Gate, Claims;
    if id !in s.claimed && |s.claimed| < MAX_MANAGED_TURNS_PER_SESSION {
      ClaimKeeps(s, id, Claim.Tombstone);
    }
    FailKeeps(s);
  }

  lemma SpawnKeeps(s: State, f: Frame)
    requires Inv(s) && FrameOk(s, s.nextFrame, f) && !HoldsLock(f)
    ensures Inv(Spawn(s, f))
  {}

  lemma SpawnHolderKeeps(s: State)
    requires Inv(s) && s.turnLock.None?
    ensures Inv(Spawn(s.(turnLock := Some(s.nextFrame)), ForcedHold))
  {}

  lemma PutKeeps(s: State, id: nat, f: Frame)
    requires Inv(s) && id in s.frames && FrameOk(s, id, f)
    requires !HoldsLock(f) && !HoldsLock(s.frames[id])
    ensures Inv(Put(s, id, f))
  {}

  lemma LeaveFrames(s: State, id: nat)
    requires Frames(s) && Lock(s) && id in s.frames && !s.frames[id].StartRpc?
    ensures Frames(Leave(s, id)) && Lock(Leave(s, id))
  {}

  lemma LeaveRest(s: State, id: nat)
    requires Requests(s) && Turns(s) && Slot(s) && Gate(s) && Claims(s)
    ensures var t := Leave(s, id); Requests(t) && Turns(t) && Slot(t) && Gate(t) && Claims(t)
  {
    hide Distinct;
    if s.turnLock == Some(id) { return; }
  }

  lemma LeaveInv(s: State, id: nat)
    requires Inv(s) && id in s.frames && !s.frames[id].StartRpc?
    ensures Inv(Leave(s, id))
  {
    hide Frames, Lock, Requests, Turns, Slot, Gate, Claims, Leave;
    LeaveFrames(s, id);
    LeaveRest(s, id);
  }

  lemma LeaveShape(s: State, id: nat)
    requires Inv(s) && id in s.frames
    ensures !HoldsLock(s.frames[id]) ==> Leave(s, id) == Drop(s, id)
    ensures forall g :: StageIs(s, g, Carried(id)) ==> Unheld(Leave(s, id), g)
  {}

  lemma LeaveKeeps(s: State, id: nat)
    requires Inv(s) && id in s.frames && !s.frames[id].StartRpc?
    ensures Inv(Leave(s, id))
    ensures !HoldsLock(s.frames[id]) ==> Leave(s, id) == Drop(s, id)
    ensures forall g :: StageIs(s, g, Carried(id)) ==> Unheld(Leave(s, id), g)
  {
    hide Inv, Leave, Drop, HoldsLock, StageIs, Unheld;
    LeaveInv(s, id);
    LeaveShape(s, id);
  }

  lemma AtFrames(s: State, g: nat, st: Stage)
    requires Frames(s) && Lock(s) && Unheld(s, g) && g <= s.gen
    ensures Frames(At(s, g, st)) && Lock(At(s, g, st))
  {}

  lemma AtRest(s: State, g: nat, st: Stage)
    requires Requests(s) && Turns(s) && Slot(s) && Gate(s) && Claims(s) && Unheld(s, g)
    requires g in s.hist.starts ==> Sent(st)
    requires g in s.hist.takes ==> st.Rendered?
    requires g in s.hist.completions ==> Done(st)
    ensures var t := At(s, g, st); Requests(t) && Turns(t) && Slot(t) && Gate(t) && Claims(t)
  {}

  lemma AtKeeps(s: State, g: nat, st: Stage)
    requires Inv(s) && Unheld(s, g) && g <= s.gen
    requires g in s.hist.starts ==> Sent(st)
    requires g in s.hist.takes ==> st.Rendered?
    requires g in s.hist.completions ==> Done(st)
    ensures Inv(At(s, g, st))
  {
    hide Frames, Lock, Requests, Turns, Slot, Gate, Claims, Unheld;
    AtFrames(s, g, st);
    AtRest(s, g, st);
  }

  lemma AddUserTurnKeeps(s: State, u: UserTurn)
    requires Inv(s) && StageIs(s, u.gen, Stage.Bound(u.id)) && ClaimIs(s, u.id, User(u.gen))
    requires forall v | v in s.userTurns :: v.id != u.id
    ensures Inv(s.(userTurns := s.userTurns + [u]))
  {}

  lemma TrimUserTurnsKeeps(s: State, n: nat)
    requires Inv(s) && n <= |s.userTurns|
    ensures Inv(s.(userTurns := s.userTurns[n..]))
  {}

  lemma UnheldHasNoUserTurn(s: State, id: TurnId, g: nat)
    requires Inv(s) && Unheld(s, g) && ClaimIs(s, id, User(g))
    ensures forall v | v in s.userTurns :: v.id != id
  {}

  lemma BindKeeps(s: State, id: TurnId, g: nat)
    requires Inv(s) && Unheld(s, g) && g <= s.gen && ClaimIs(s, id, User(g))
    requires Fresh(s, g)
    ensures Inv(BindUserTurn(s, id, g))
  {
    hide Frames, Lock, Requests, Turns, Slot, Gate, Claims, Unheld;
    UnheldHasNoUserTurn(s, id, g);
    AtKeeps(s, g, Stage.Bound(id));
    var s1 := At(s, g, Stage.Bound(id));
    AddUserTurnKeeps(s1, UserTurn(id, g));
    var turns := s.userTurns + [UserTurn(id, g)];
    if |turns| > MAX_USER_TURN_CORRELATIONS {
      TrimUserTurnsKeeps(s1.(userTurns := turns), |turns| - MAX_USER_TURN_CORRELATIONS);
    }
  }

  /** Removing an entry from a table with distinct ids leaves the others, and only them. */
  lemma RemoveEntry(turns: seq<UserTurn>, i: nat)
    requires i < |turns| && forall j, k :: 0 <= j < k < |turns| ==> turns[j].id != turns[k].id
    ensures var rest := turns[..i] + turns[i + 1..];
      && (forall u | u in rest :: u in turns && u.id != turns[i].id)
      && (forall j, k :: 0 <= j < k < |rest| ==> rest[j].id != rest[k].id)
  {}

  lemma RemoveUserTurnKeeps(s: State, i: nat)
    requires Inv(s) && i < |s.userTurns|
    ensures Inv(s.(userTurns := s.userTurns[..i] + s.userTurns[i + 1..]))
    ensures Unheld(s.(userTurns := s.userTurns[..i] + s.userTurns[i + 1..]), s.userTurns[i].gen)
    ensures forall u | u in s.userTurns[..i] + s.userTurns[i + 1..] :: u.id != s.userTurns[i].id
  {
    RemoveEntry(s.userTurns, i);
    KeepUserTurns(s, s.userTurns[..i] + s.userTurns[i + 1..], s.userTurns[i]);
  }

  /** Dropping user turns keeps the invariant, and nothing is left of the one generation dropped. */
  lemma KeepUserTurns(s: State, rest: seq<UserTurn>, dropped: UserTurn)
    requires Inv(s) && dropped in s.userTurns
    requires forall u | u in rest :: u in s.userTurns && u.id != dropped.id
    requires forall j, k :: 0 <= j < k < |rest| ==> rest[j].id != rest[k].id
    ensures Inv(s.(userTurns := rest)) && Unheld(s.(userTurns := rest), dropped.gen)
  {}

  // ----- every event keeps the invariant -----

  /** A generation whose request is still in a coroutine has not been started or rendered. */
  lemma CarriedIsFresh(s: State, g: nat)
    requires Inv(s) && g in s.hist.stage && !Sent(s.hist.stage[g])
    ensures g <= s.gen && Fresh(s, g)
  {}

  lemma InterruptSpawned(s: State, owner: Owner, bind: Option<UserTurn>)
    requires Inv(s)
    requires bind.Some? ==> StageIs(s, bind.value.gen, Carried(s.nextFrame)) && ClaimIs(s, bind.value.id, User(bind.value.gen))
    ensures Inv(Spawn(CancelRender(s), EndThenInterrupt(owner, bind)))
  {
    hide Frames, Lock, Requests, Turns, Slot, Gate, Claims;
    CancelRenderKeeps(s);
    SpawnKeeps(CancelRender(s), EndThenInterrupt(owner, bind));
  }

  lemma ContinuedUserTurnKeeps(s: State, id: TurnId)
    requires Inv(s) && id !in s.claimed && s.pendingSpeech == Some(s.gen)
    ensures Inv(BindUserTurn(ClaimFor(s, id, User(s.gen)).(pendingSpeech := None), id, s.gen))
  {
    hide Frames, Lock, Requests, Turns, Slot, Gate, Claims, Unheld, BindUserTurn;
    PendingIsUnheld(s);
    CarriedIsFresh(s, s.gen);
    ClaimKeeps(s, id, User(s.gen));
    var s1 := ClaimFor(s, id, User(s.gen));
    SpeechFlagsKeep(s1, None, s1.transcriptHandled);
    UnheldFrame(s.(pendingSpeech := None), s1.(pendingSpeech := None), s.gen);
    BindKeeps(s1.(pendingSpeech := None), id, s.gen);
  }

  lemma NewUserTurnKeeps(s: State, id: TurnId, owner: Owner)
    requires Inv(s) && id !in s.claimed
    ensures var s1 := BeginGeneration(ClaimFor(s, id, User(s.gen + 1)), Carried(s.nextFrame)).(transcriptHandled := false);
      Inv(Spawn(CancelRender(s1), EndThenInterrupt(owner, Some(UserTurn(id, s.gen + 1)))))
  {
    hide Frames, Lock, Requests, Turns, Slot, Gate, Claims, Unheld, CancelRender, Spawn;
    ClaimKeeps(s, id, User(s.gen + 1));
    var s1 := ClaimFor(s, id, User(s.gen + 1));
    BeginGenerationKeeps(s1, Carried(s.nextFrame));
    var s2 := BeginGeneration(s1, Carried(s.nextFrame));
    PendingIsAwaited(s2);
    SpeechFlagsKeep(s2, s2.pendingSpeech, false);
    InterruptSpawned(s2.(transcriptHandled := false), owner, Some(UserTurn(id, s.gen + 1)));
  }

  lemma UserTurnCreatedKeeps(s: State, id: TurnId)
    requires Inv(s)
    ensures Inv(UserTurnCreated(s, id))
  {
    hide Inv, BindUserTurn, CancelRender, Spawn;
    FailKeeps(s);
    if id !in s.claimed && |s.claimed| < MAX_MANAGED_TURNS_PER_SESSION {
      if s.pendingSpeech == Some(s.gen) { ContinuedUserTurnKeeps(s, id); } else { NewUserTurnKeeps(s, id, CurrentOwner(s)); }
    }
  }

  lemma PendingIsAwaited(s: State)
    requires Inv(s)
    ensures s.pendingSpeech.Some? ==> StageIs(s, s.pendingSpeech.value, Awaited)
  {}

  lemma PendingIsUnheld(s: State)
    requires Inv(s) && s.pendingSpeech == Some(s.gen)
    ensures StageIs(s, s.gen, Awaited) && Unheld(s.(pendingSpeech := None), s.gen)
  {}

  lemma UnheldFrame(s: State, t: State, g: nat)
    requires Unheld(s, g) && t.pendingSpeech == s.pendingSpeech && t.queued == s.queued && t.userTurns == s.userTurns
    requires t.turn == s.turn && t.render == s.render && t.frames == s.frames
    ensures Unheld(t, g)
  {}

  lemma UserTurnIsFresh(s: State, i: nat)
    requires Inv(s) && i < |s.userTurns|
    ensures ClaimIs(s, s.userTurns[i].id, User(s.userTurns[i].gen))
    ensures s.userTurns[i].gen <= s.gen && Fresh(s, s.userTurns[i].gen)
  {
    assert s.userTurns[i] in s.userTurns;
  }

  lemma UnheldSurvivesCancel(s: State, g: nat)
    requires Unheld(s, g)
    ensures Unheld(CancelRender(s), g)
  {}

  lemma DispatchKeeps(s: State, id: TurnId, g: nat)
    requires Inv(s) && ClaimIs(s, id, User(g)) && StageIs(s, g, Carried(s.nextFrame))
    ensures Inv(s.(hist := s.hist.(claims := s.hist.claims[id := Dispatched], dispatches := s.hist.dispatches + [id])))
  {
    assert forall f | f in s.frames && HasBind(s.frames[f]) && s.frames[f].bind.Some? ::
      FrameOk(s, f, s.frames[f]) && s.frames[f].bind.value.id != id;
    assert s.hist.claims[id := Dispatched].Keys == s.hist.claims.Keys;
    assert id !in s.hist.dispatches;
  }

  lemma UserTurnDoneKeeps(s: State, id: Option<TurnId>, transcript: Transcript)
    requires Inv(s)
    ensures Inv(UserTurnDone(s, id, transcript))
  {
    hide Frames, Lock, Requests, Turns, Slot, Gate, Claims, Unheld;
    if id.Some? {
      var i := FindUserTurn(s.userTurns, id.value);
      if i == |s.userTurns| {
        ClaimTombstoneKeeps(s, id.value);
      } else {
        RemoveUserTurnKeeps(s, i);
        UserTurnIsFresh(s, i);
        DispatchTranscript(s, s.(userTurns := s.userTurns[..i] + s.userTurns[i + 1..]), id.value, s.userTurns[i].gen, transcript);
      }
    }
  }

  lemma DispatchTranscript(s: State, s1: State, id: TurnId, g: nat, transcript: Transcript)
    requires Inv(s1) && Unheld(s1, g) && s1 == s.(userTurns := s1.userTurns)
    requires ClaimIs(s1, id, User(g)) && g <= s.gen && Fresh(s, g)
    ensures Inv(s1.(transcriptHandled := true))
    ensures transcript.Spoken? ==> Inv(Dispatch(s1.(transcriptHandled := true), id, g, transcript.text))
  {
    hide Frames, Lock, Requests, Turns, Slot, Gate, Claims, Unheld;
    PendingIsAwaited(s1);
    SpeechFlagsKeep(s1, s1.pendingSpeech, true);
    var s2 := s1.(transcriptHandled := true);
    UnheldFrame(s1, s2, g);
    CancelRenderKeeps(s2);
    UnheldSurvivesCancel(s2, g);
    AtKeeps(CancelRender(s2), g, Carried(s.nextFrame));
    var s3 := At(CancelRender(s2), g, Carried(s.nextFrame));
    DispatchKeeps(s3, id, g);
    if transcript.Spoken? {
      SpawnKeeps(s3.(hist := s3.hist.(claims := s3.hist.claims[id := Dispatched], dispatches := s3.hist.dispatches + [id])),
                 EndThenStart(Request(g, transcript.text)));
    }
  }

  lemma SpeechStartedKeeps(s: State)
    requires Inv(s)
    ensures Inv(SpeechStarted(s))
  {
    hide Frames, Lock, Requests, Turns, Slot, Gate, Claims, Unheld;
    if s.pendingSpeech.None? {
      BeginGenerationKeeps(s, Awaited);
      var s1 := BeginGeneration(s, Awaited);
      SpeechFlagsKeep(s1, Some(s1.gen), false);
      InterruptSpawned(s1.(pendingSpeech := Some(s1.gen), transcriptHandled := false), CurrentOwner(s), None);
    }
  }

  /** The state with a fresh assistant turn bound to the acknowledged render. */
  function BoundRender(s: State, id: TurnId): State
    requires s.render.Some?
  {
    var r := s.render.value;
    var s1 := ClaimFor(s, id, Claim.Bound(r.inc)).(render := Some(r.(turnId := Some(id), started := true)));
    s1.(hist := s1.hist.(bindings := s1.hist.bindings + [id]))
  }

  /** The claim is fresh, so no binding and no terminal handler knows the turn yet. */
  lemma FreshTurnIsUnknown(s: State, id: TurnId)
    requires Inv(s) && id !in s.claimed
    ensures id !in s.hist.bindings && forall f | f in s.frames && s.frames[f].EndThenTerminal? :: s.frames[f].id != id
    ensures s.render.Some? ==> s.render.value.turnId != Some(id)
  {
    assert forall f | f in s.frames && s.frames[f].EndThenTerminal? :: FrameOk(s, f, s.frames[f]);
  }

  lemma StartRenderKeeps(s: State, id: TurnId)
    requires Inv(s) && s.render.Some? && s.render.value.ack && s.render.value.turnId.None?
    requires ClaimIs(s, id, Claim.Bound(s.render.value.inc)) && id !in s.hist.bindings
    requires forall f | f in s.frames && s.frames[f].EndThenTerminal? :: s.frames[f].id != id
    ensures Inv(s.(render := Some(s.render.value.(turnId := Some(id), started := true)),
                   hist := s.hist.(bindings := s.hist.bindings + [id])))
  {}

  lemma MarkStartedKeeps(s: State, id: TurnId)
    requires Inv(s) && id !in s.claimed
    requires s.render.Some? && s.render.value.ack && s.render.value.turnId.None?
    ensures Inv(BoundRender(s, id))
    ensures forall f | f in s.frames && s.frames[f].EndThenTerminal? :: s.frames[f].id != id
  {
    hide Inv;
    FreshTurnIsUnknown(s, id);
    ClaimKeeps(s, id, Claim.Bound(s.render.value.inc));
    StartRenderKeeps(ClaimFor(s, id, Claim.Bound(s.render.value.inc)), id);
  }

  lemma AuthorizeKeeps(s: State)
    requires Inv(s) && s.render.Some? && s.render.value.started && s.render.value.gen == s.gen
    requires forall f | f in s.frames && s.frames[f].EndThenTerminal? :: s.render.value.turnId != Some(s.frames[f].id)
    ensures Inv(s.(outGen := Some(s.gen)))
  {}

  lemma BindRenderKeeps(s: State, id: TurnId)
    requires Inv(s) && id !in s.claimed && |s.claimed| < MAX_MANAGED_TURNS_PER_SESSION
    requires s.render.Some? && s.render.value.ack && s.render.value.turnId.None?
    ensures Inv(AssistantTurnCreated(s, id))
  {
    hide Frames, Lock, Requests, Turns, Slot, Gate, Claims, Unheld;
    MarkStartedKeeps(s, id);
    if s.render.value.gen == s.gen {
      AuthorizeKeeps(BoundRender(s, id));
    } else {
      CancelRenderKeeps(BoundRender(s, id));
    }
  }

  lemma AssistantTurnCreatedKeeps(s: State, id: TurnId)
    requires Inv(s)
    ensures Inv(AssistantTurnCreated(s, id))
  {
    hide Frames, Lock, Requests, Turns, Slot, Gate, Claims, Unheld;
    if id in s.claimed {
    } else if |s.claimed| >= MAX_MANAGED_TURNS_PER_SESSION {
      FailKeeps(s);
    } else if !StartMatches(s, None, Some(id)) {
      ClaimKeeps(s, id, Claim.Tombstone);
    } else {
      FreshTurnIsUnknown(s, id);
      BindRenderKeeps(s, id);
    }
  }

  lemma TerminalFrameIsOk(s: State, id: TurnId, responseId: Option<ResponseId>)
    requires Inv(s) && TerminalMatches(s, responseId, Some(id))
    ensures FrameOk(s, s.nextFrame, EndThenTerminal(id, responseId, s.outGen == Some(s.gen)))
  {}

  lemma AssistantTurnDoneKeeps(s: State, id: TurnId, responseId: Option<ResponseId>)
    requires Inv(s)
    ensures Inv(AssistantTurnDone(s, id, responseId))
  {
    hide Frames, Lock, Requests, Turns, Slot, Gate, Claims, Unheld;
    ClaimTombstoneKeeps(s, id);
    if TerminalMatches(s, responseId, Some(id)) {
      TerminalFrameIsOk(s, id, responseId);
      SpawnKeeps(s, EndThenTerminal(id, responseId, s.outGen == Some(s.gen)));
    }
  }

  lemma DeviceTextKeeps(s: State, text: string)
    requires Inv(s)
    ensures Inv(DeviceText(s, text))
  {
    hide Frames, Lock, Requests, Turns, Slot, Gate, Claims, Unheld;
    BeginGenerationKeeps(s, Carried(s.nextFrame));
    var s1 := BeginGeneration(s, Carried(s.nextFrame));
    SpeechFlagsKeep(s1, None, true);
    var s2 := s1.(pendingSpeech := None, transcriptHandled := true);
    CancelRenderKeeps(s2);
    SpawnKeeps(CancelRender(s2), EndThenStart(Request(s1.gen, text)));
  }

  lemma DeviceInterruptKeeps(s: State)
    requires Inv(s)
    ensures Inv(DeviceInterrupt(s))
  {
    hide Frames, Lock, Requests, Turns, Slot, Gate, Claims, Unheld;
    BeginGenerationKeeps(s, Unused);
    var s1 := BeginGeneration(s, Unused);
    SpeechFlagsKeep(s1, None, true);
    InterruptSpawned(s1.(pendingSpeech := None, transcriptHandled := true), CurrentOwner(s), None);
  }

  /** An unstarted render has no terminal yet, so its acknowledgement alone retires nothing. */
  lemma AcknowledgeKeeps(s: State)
    requires Inv(s) && s.render.Some?
    ensures Inv(s.(render := Some(s.render.value.(ack := true)))) && !s.render.value.terminalSeen
  {
    hide Distinct;
  }

  lemma ContextAppendedKeeps(s: State)
    requires Inv(s)
    ensures Inv(ContextAppended(s))
  {
    hide Inv;
    if s.render.Some? { AcknowledgeKeeps(s); }
  }

  lemma ToolCallKeeps(s: State, id: Option<TurnId>)
    requires Inv(s)
    ensures Inv(ToolCall(s, id))
  {}

  // ----- the executor turn -----

  lemma EndTurnKeeps(s: State)
    requires Inv(s) && s.turn.Some?
    ensures Inv(s.(turn := None, queued := None))
    ensures Unheld(s.(turn := None, queued := None), s.turn.value.gen)
    ensures s.turn.value.gen <= s.gen && s.turn.value.gen !in s.hist.takes && s.turn.value.gen !in s.hist.completions
    ensures s.queued.Some? ==>
      && Unheld(s.(turn := None, queued := None), s.queued.value.gen)
      && s.turn.value.gen < s.queued.value.gen <= s.gen
      && Fresh(s, s.queued.value.gen)
  {}

  lemma NoTurnNoQueue(s: State)
    requires Inv(s) && s.turn.None?
    ensures s.queued.None?
  {}

  lemma BeginAppendKeeps(s: State, gen: nat, answer: Answer)
    requires Inv(s) && Unheld(s, gen) && gen <= s.gen && gen !in s.hist.takes
    ensures Inv(BeginAppend(s, gen, answer))
  {
    hide Frames, Lock, Requests, Turns, Slot, Gate, Claims, Unheld;
    if gen == s.gen && answer.Speak? {
      CancelRenderKeeps(s);
      UnheldSurvivesCancel(s, gen);
      AtKeeps(CancelRender(s), gen, Answering(s.nextFrame));
      var s1 := At(CancelRender(s), gen, Answering(s.nextFrame));
      SpawnKeeps(s1, if s.render.Some? then RenderWait(Request(gen, answer.text), s.render.value.inc)
                     else RenderQuiet(Request(gen, answer.text)));
    }
  }

  lemma UnheldAt(s: State, g: nat, st: Stage, h: nat)
    requires Unheld(s, h)
    ensures Unheld(At(s, g, st), h)
  {}

  lemma NoteCompletionKeeps(s: State, g: nat)
    requires Inv(s) && StageIs(s, g, Over) && g !in s.hist.completions
    ensures Inv(s.(hist := s.hist.(completions := s.hist.completions + [g])))
  {}

  lemma CompleteKeeps(s: State, g: nat)
    requires Inv(s) && Unheld(s, g) && g <= s.gen && g !in s.hist.takes && g !in s.hist.completions
    ensures Inv(Complete(s, g)) && Unheld(Complete(s, g), g)
  {
    hide Frames, Lock, Requests, Turns, Slot, Gate, Claims, Unheld;
    AtKeeps(s, g, Over);
    NoteCompletionKeeps(At(s, g, Over), g);
    UnheldComplete(s, g, g);
  }

  lemma UnheldComplete(s: State, g: nat, h: nat)
    requires Unheld(s, h)
    ensures Unheld(Complete(s, g), h)
  {}

  lemma TurnCompletedKeeps(s: State, id: Option<TurnId>, completed: bool, answer: Answer)
    requires Inv(s)
    ensures Inv(TurnCompleted(s, id, completed, answer))
  {
    hide Frames, Lock, Requests, Turns, Slot, Gate, Claims, Unheld;
    if s.turn.None? {
      NoTurnNoQueue(s);
    } else {
      EndTurnKeeps(s);
      var g, s1 := s.turn.value.gen, s.(turn := None, queued := None);
      CompleteKeeps(s1, g);
      var s2 := Complete(s1, g);
      FailKeeps(s2);
      BeginAppendKeeps(s2, g, answer);
      if s.queued.Some? && s.queued.value.gen == s.gen {
        UnheldComplete(s1, g, s.gen);
        AtKeeps(s2, s.gen, Carried(s2.nextFrame));
        SpawnKeeps(At(s2, s.gen, Carried(s2.nextFrame)), StartWait(s.queued.value));
      }
    }
  }

  lemma SetInterruptingKeeps(s: State)
    requires Inv(s) && s.turn.Some?
    ensures Inv(s.(turn := Some(s.turn.value.(interrupting := true))))
  {}

  lemma DropQueuedKeeps(s: State)
    requires Inv(s)
    ensures Inv(s.(queued := None))
  {}

  lemma ForcedInterruptsKeep(s: State)
    requires Inv(s)
    ensures Inv(WatchdogExpired(s)) && Inv(ShutdownTombstone(s)) && Inv(ShutdownInterrupt(s))
  {
    hide Frames, Lock, Requests, Turns, Slot, Gate, Claims, Unheld;
    BeginGenerationKeeps(s, Unused);
    var s1 := BeginGeneration(s, Unused);
    DropQueuedKeeps(s1);
    if s.turn.Some? {
      SetInterruptingKeeps(s1);
      SetInterruptingKeeps(s1.(queued := None));
    }
    if s.turnLock.None? {
      SpawnHolderKeeps(s);
      if s.turn.Some? { SpawnHolderKeeps(s1.(turn := Some(s.turn.value.(interrupting := true)))); }
    }
  }

  // ----- resumptions -----

  lemma FrameIsOk(s: State, id: nat)
    requires Inv(s) && id in s.frames
    ensures FrameOk(s, id, s.frames[id])
  {}

  lemma FinishInterruptKeeps(s: State, id: nat, bind: Option<UserTurn>)
    requires Inv(s) && id in s.frames && HasBind(s.frames[id]) && s.frames[id].bind == bind
    ensures Inv(FinishInterrupt(s, id, bind))
  {
    hide Frames, Lock, Requests, Turns, Slot, Gate, Claims, Unheld;
    FrameIsOk(s, id);
    LeaveKeeps(s, id);
    if bind.Some? {
      CarriedIsFresh(s, bind.value.gen);
      BindKeeps(Leave(s, id), bind.value.id, bind.value.gen);
    }
  }

  lemma BargeKeeps(s: State, id: nat, f: Frame)
    requires Inv(s) && id in s.frames && s.turnLock.None?
    requires s.turn.Some? && !s.turn.value.hadTool
    requires (f.InterruptHold? || f.StartInterrupt?) && f.inc == s.turn.value.inc && FrameOk(s, id, f)
    ensures Inv(Barge(s, id, f))
  {}

  lemma WaiterIsNotHolder(s: State, id: nat)
    requires Inv(s) && id in s.frames && s.turnLock.None?
    ensures !HoldsLock(s.frames[id])
  {}

  lemma SetQueuedKeeps(s: State, r: Request)
    requires Inv(s) && StageIs(s, r.gen, Stage.Queued)
    requires s.turn.Some? && s.turn.value.hadTool && s.turn.value.gen < r.gen
    ensures Inv(s.(queued := Some(r)))
  {}

  lemma TurnIsOlder(s: State, id: nat)
    requires Inv(s) && id in s.frames && s.frames[id].StartWait? && s.frames[id].request.gen == s.gen && s.turn.Some?
    ensures s.turn.value.gen < s.gen && StageIs(s, s.gen, Carried(id))
  {
    assert FrameOk(s, id, s.frames[id]);
  }

  lemma QueueKeeps(s: State, id: nat, r: Request)
    requires Inv(s) && id in s.frames && s.frames[id] == StartWait(r) && r.gen == s.gen
    requires s.turn.Some? && s.turn.value.hadTool && s.turnLock.None?
    ensures Inv(Drop(At(s, r.gen, Stage.Queued), id).(queued := Some(r)))
  {
    hide Frames, Lock, Requests, Turns, Slot, Gate, Claims, Unheld, HoldsLock;
    WaiterIsNotHolder(s, id);
    TurnIsOlder(s, id);
    LeaveKeeps(s, id);
    CarriedIsFresh(s, s.gen);
    AtKeeps(Drop(s, id), s.gen, Stage.Queued);
    SetQueuedKeeps(At(Drop(s, id), s.gen, Stage.Queued), r);
  }

  ghost predicate MaySendTurnStart(s: State, id: nat, r: Request) {
    && id in s.frames && (s.frames[id].StartWait? || s.frames[id].StartInterrupt?) && s.frames[id].request == r
    && r.gen == s.gen && s.turn.None? && (s.turnLock.None? || s.turnLock == Some(id))
  }

  lemma SendTurnStartLock(s: State, id: nat, r: Request)
    requires Lock(s) && MaySendTurnStart(s, id, r)
    ensures Lock(SendTurnStart(s, id, r))
  {}

  lemma SendTurnStartFrames(s: State, id: nat, r: Request)
    requires Frames(s) && Lock(s) && MaySendTurnStart(s, id, r)
    ensures Frames(SendTurnStart(s, id, r)) && Lock(SendTurnStart(s, id, r))
  {
    assert FrameOk(s, id, s.frames[id]);
    SendTurnStartLock(s, id, r);
    hide Lock;
  }

  lemma SendTurnStartRest(s: State, id: nat, r: Request)
    requires Inv(s) && MaySendTurnStart(s, id, r) && StageIs(s, r.gen, Carried(id))
    ensures var t := SendTurnStart(s, id, r); Requests(t) && Turns(t) && Slot(t) && Gate(t) && Claims(t)
  {
    hide Frames, Lock;
  }

  lemma SendTurnStartKeeps(s: State, id: nat, r: Request)
    requires Inv(s) && MaySendTurnStart(s, id, r)
    ensures Inv(SendTurnStart(s, id, r))
  {
    hide Frames, Lock, Requests, Turns, Slot, Gate, Claims, Unheld;
    FrameIsOk(s, id);
    SendTurnStartFrames(s, id, r);
    SendTurnStartRest(s, id, r);
  }

  lemma LockFreeMeansNotHeld(s: State, id: nat)
    requires Inv(s) && id in s.frames
    ensures HoldsLock(s.frames[id]) <==> s.turnLock == Some(id)
  {}

  lemma ResumeStartKeeps(s: State, id: nat)
    requires Inv(s) && id in s.frames && (s.frames[id].StartWait? || s.frames[id].StartInterrupt?)
    ensures Inv(Resume(s, id))
  {
    hide Frames, Lock, Requests, Turns, Slot, Gate, Claims, Unheld;
    var f := s.frames[id];
    FrameIsOk(s, id);
    LockFreeMeansNotHeld(s, id);
    LeaveKeeps(s, id);
    if f.StartWait? && s.turnLock.None? && f.request.gen == s.gen {
      if s.turn.None? {
        SendTurnStartKeeps(s, id, f.request);
      } else if s.turn.value.hadTool {
        QueueKeeps(s, id, f.request);
      } else {
        BargeKeeps(s, id, StartInterrupt(f.request, s.turn.value.inc));
      }
    }
    if f.StartInterrupt? && TurnOver(s, f.inc) && f.request.gen == s.gen {
      SendTurnStartKeeps(s, id, f.request);
    }
  }

  lemma ResumeInterruptKeeps(s: State, id: nat)
    requires Inv(s) && id in s.frames && HasBind(s.frames[id])
    ensures Inv(Resume(s, id))
  {
    hide Frames, Lock, Requests, Turns, Slot, Gate, Claims, Unheld;
    var f := s.frames[id];
    FrameIsOk(s, id);
    FinishInterruptKeeps(s, id, f.bind);
    if f.EndThenInterrupt? {
      PutKeeps(s, id, InterruptWait(f.owner, f.bind));
    }
    if f.InterruptWait? && s.turnLock.None? && s.turn.Some? && !s.turn.value.hadTool {
      BargeKeeps(s, id, InterruptHold(s.turn.value.inc, f.bind));
    }
  }

  lemma CloseGateKeeps(s: State)
    requires Inv(s)
    ensures Inv(s.(outGen := None))
  {}

  lemma RetireKeeps(s: State)
    requires Inv(s) && s.outGen.None?
    ensures Inv(s.(render := None))
  {}

  lemma ResumeTerminalKeeps(s: State, id: nat)
    requires Inv(s) && id in s.frames && s.frames[id].EndThenTerminal?
    ensures Inv(Resume(s, id))
  {
    hide Frames, Lock, Requests, Turns, Slot, Gate, Claims, Unheld;
    FrameIsOk(s, id);
    CloseGateKeeps(s);
    var s1 := if s.frames[id].owned then s.(outGen := None) else s;
    if TerminalMatches(s1, s.frames[id].responseId, Some(s.frames[id].id)) {
      RetireKeeps(s1);
      LeaveKeeps(s1.(render := None), id);
      LockFreeMeansNotHeld(s, id);
    } else {
      LeaveKeeps(s1, id);
      LockFreeMeansNotHeld(s, id);
    }
  }

  /** A coroutine carrying an answer, moved on to the render call, no longer holds the generation. */
  lemma LeaveForRenderRpc(s: State, id: nat, inc: nat)
    requires Inv(s) && id in s.frames && s.frames[id].EndThenTake? && s.frames[id].request.gen == s.gen
    ensures Inv(Put(s, id, RenderRpc(s.gen, inc))) && Unheld(Put(s, id, RenderRpc(s.gen, inc)), s.gen)
    ensures s.render.None? && s.gen !in s.hist.takes
  {
    assert FrameOk(s, id, s.frames[id]);
  }

  lemma SetRenderKeeps(s: State, r: Request)
    requires Inv(s) && Unheld(s, s.gen) && s.render.None? && StageIs(s, s.gen, Rendered(s.renderCount))
    requires s.gen !in s.hist.takes
    ensures Inv(s.(render := Some(Render(s.gen, s.renderCount, false, false, None, None, false, false)),
                   renderCount := s.renderCount + 1,
                   hist := s.hist.(takes := s.hist.takes + [s.gen], spoken := s.hist.spoken + [r])))
  {}

  /** The slot is taken by the current generation, and only when it is empty. */
  lemma TakeKeeps(s: State, id: nat)
    requires Inv(s) && id in s.frames && s.frames[id].EndThenTake? && s.frames[id].request.gen == s.gen
    ensures s.render.None?
    ensures Inv(Resume(s, id))
  {
    hide Frames, Lock, Requests, Turns, Slot, Gate, Claims, Unheld;
    LeaveForRenderRpc(s, id, s.renderCount);
    var s1 := Put(s, id, RenderRpc(s.gen, s.renderCount));
    AtKeeps(s1, s.gen, Rendered(s.renderCount));
    UnheldAt(s1, s.gen, Rendered(s.renderCount), s.gen);
    SetRenderKeeps(At(s1, s.gen, Rendered(s.renderCount)), s.frames[id].request);
  }

  lemma ResumeRenderKeeps(s: State, id: nat)
    requires Inv(s) && id in s.frames && (IsAnswer(s.frames[id]) || s.frames[id].RenderRpc?)
    ensures Inv(Resume(s, id))
  {
    hide Frames, Lock, Requests, Turns, Slot, Gate, Claims, Unheld;
    var f := s.frames[id];
    FrameIsOk(s, id);
    LeaveKeeps(s, id);
    if f.RenderWait? && FrameOk(s, id, RenderQuiet(f.request)) { PutKeeps(s, id, RenderQuiet(f.request)); }
    if f.RenderQuiet? { PutKeeps(s, id, EndThenTake(f.request)); }
    if f.EndThenTake? && f.request.gen == s.gen { TakeKeeps(s, id); }
  }

  lemma ResumeKeeps(s: State, id: nat)
    requires Inv(s)
    ensures Inv(Resume(s, id))
  {
    hide Frames, Lock, Requests, Turns, Slot, Gate, Claims, Unheld;
    if id in s.frames {
      var f := s.frames[id];
      if HasBind(f) {
        ResumeInterruptKeeps(s, id);
      } else if f.StartWait? || f.StartInterrupt? {
        ResumeStartKeeps(s, id);
      } else if IsAnswer(f) || f.RenderRpc? {
        ResumeRenderKeeps(s, id);
      } else if f.EndThenTerminal? {
        ResumeTerminalKeeps(s, id);
      } else if f.EndThenStart? {
        FrameIsOk(s, id);
        PutKeeps(s, id, StartWait(f.request));
      } else if !f.StartRpc? {
        LeaveKeeps(s, id);
      }
    }
  }

  lemma StartReturnedKeeps(s: State, id: nat)
    requires Inv(s) && id in s.frames && s.frames[id].StartRpc?
    ensures s.turn.None? && s.turnLock == Some(id)
    ensures s.frames[id].request.gen <= s.gen && s.frames[id].request.gen !in s.hist.takes
    ensures s.frames[id].request.gen !in s.hist.completions
    ensures Inv(Put(s.(starting := false), id, StartDone))
    ensures Unheld(Put(s.(starting := false), id, StartDone), s.frames[id].request.gen)
  {
    assert FrameOk(s, id, s.frames[id]);
  }

  lemma ActivateKeeps(s: State, id: nat, turnId: TurnId, g: nat)
    requires Inv(s) && s.turn.None? && StageIs(s, g, Running(s.turnCount))
    requires s.turnLock == Some(id) && id in s.frames && s.frames[id].StartDone?
    ensures Inv(s.(turn := Some(Turn(turnId, g, s.turnCount, false, false)), turnCount := s.turnCount + 1))
  {}

  lemma TurnStartedKeeps(s: State, id: nat, turnId: TurnId)
    requires Inv(s)
    ensures Inv(TurnStarted(s, id, turnId))
  {
    hide Frames, Lock, Requests, Turns, Slot, Gate, Claims, Unheld;
    if id in s.frames && s.frames[id].StartRpc? {
      var g := s.frames[id].request.gen;
      StartReturnedKeeps(s, id);
      var s1 := Put(s.(starting := false), id, StartDone);
      if g != s.gen {
        AtKeeps(s1, g, Over);
      } else {
        AtKeeps(s1, g, Running(s.turnCount));
        ActivateKeeps(At(s1, g, Running(s.turnCount)), id, turnId, g);
      }
    }
  }

  lemma AbortStartRpcKeeps(s: State, id: nat)
    requires Inv(s) && id in s.frames && s.frames[id].StartRpc?
    ensures Inv(Abort(s, id))
  {}

  lemma ClearFailedRenderKeeps(s: State)
    requires Inv(s) && s.render.Some?
    ensures Inv(s.(render := None, hist := s.hist.(failedRenders := s.hist.failedRenders + {s.render.value.gen})))
  {}

  lemma AbortKeeps(s: State, id: nat)
    requires Inv(s)
    ensures Inv(Abort(s, id))
  {
    hide Frames, Lock, Requests, Turns, Slot, Gate, Claims, Unheld;
    if id in s.frames {
      if s.frames[id].StartRpc? {
        AbortStartRpcKeeps(s, id);
      } else {
        LeaveKeeps(s, id);
        FailKeeps(Leave(s, id));
        if s.render.Some? { ClearFailedRenderKeeps(Leave(s, id).(failed := true)); }
      }
    }
  }

  /** The joint invariant survives every event, in every interleaving. */
  lemma StepKeeps(s: State, e: Event)
    requires Inv(s)
    ensures Inv(Step(s, e))
  {
    hide Frames, Lock, Requests, Turns, Slot, Gate, Claims, Unheld;
    match e
    case EContextAppended => ContextAppendedKeeps(s);
    case EUserTurnCreated(id) => UserTurnCreatedKeeps(s, id);
    case EUserTurnDone(id, transcript) => UserTurnDoneKeeps(s, id, transcript);
    case ESpeechStarted => SpeechStartedKeeps(s);
    case EAssistantTurnCreated(id) => AssistantTurnCreatedKeeps(s, id);
    case EAssistantTurnDone(id, responseId) => AssistantTurnDoneKeeps(s, id, responseId);
    case EDeviceText(text) => DeviceTextKeeps(s, text);
    case EDeviceInterrupt => DeviceInterruptKeeps(s);
    case EToolCall(id) => ToolCallKeeps(s, id);
    case ETurnCompleted(id, completed, answer) => TurnCompletedKeeps(s, id, completed, answer);
    case EWatchdogExpired => ForcedInterruptsKeep(s);
    case ETombstone => ForcedInterruptsKeep(s);
    case EShutdownInterrupt => ForcedInterruptsKeep(s);
    case EResume(frame) => ResumeKeeps(s, frame);
    case ETurnStarted(frame, id) => TurnStartedKeeps(s, frame, id);
    case EAbort(frame) => AbortKeeps(s, frame);
  }

  lemma {:induction false} ReachedKeeps(events: seq<Event>)
    ensures Inv(Reached(events))
  {
    if events == [] {
      InitInv();
    } else {
      ReachedKeeps(events[..|events| - 1]);
      StepKeeps(Reached(events[..|events| - 1]), events[|events| - 1]);
    }
  }
}
