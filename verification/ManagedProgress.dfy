/**
 The managed socket never strands what it was asked: from every reachable state a few ordinary events, none of
 them a failure or a newer generation, bring a waiting current request to turn/start and a waiting current
 answer to append_speech.
 */
module ManagedProgress {
  import opened Wrappers
  import opened ManagedControl
  import opened ManagedInvariant
  import opened ManagedSafety
  import opened ManagedRequests
  import opened ManagedEffects

  function After(s: State, tail: seq<Event>): State
    decreases |tail|
  {
    if tail == [] then s else After(Step(s, tail[0]), tail[1..])
  }

  /** What the executor, the provider and the event loop do when nothing fails and nobody speaks. */
  predicate Ordinary(e: Event) {
    || e.EResume? || e.ETurnStarted? || e.ETurnCompleted?
    || e.EContextAppended? || e.EAssistantTurnCreated? || e.EAssistantTurnDone?
  }

  ghost predicate Uneventful(tail: seq<Event>) { forall e | e in tail :: Ordinary(e) }

  lemma AfterOne(s: State, e: Event)
    ensures After(s, [e]) == Step(s, e)
  {
    hide Step;
    assert After(Step(s, e), []) == Step(s, e);
  }

  lemma {:induction false} AfterBoth(s: State, tail: seq<Event>, more: seq<Event>)
    ensures After(s, tail + more) == After(After(s, tail), more)
    decreases |tail|
  {
    hide Step;
    if tail == [] {
      assert tail + more == more;
    } else {
      AfterBoth(Step(s, tail[0]), tail[1..], more);
      assert (tail + more)[1..] == tail[1..] + more;
    }
  }

  lemma {:induction false} ReachedAfter(events: seq<Event>, tail: seq<Event>)
    ensures Reached(events + tail) == After(Reached(events), tail)
    decreases |tail|
  {
    hide Step;
    if tail == [] {
      assert events + tail == events;
    } else {
      assert (events + [tail[0]])[..|events|] == events;
      ReachedAfter(events + [tail[0]], tail[1..]);
      assert events + [tail[0]] + tail[1..] == events + tail;
    }
  }

  // ----- what an uneventful tail keeps -----

  /** The state of a run: what is proved of every reachable one. */
  ghost predicate Sound(s: State) { Inv(s) && |s.userTurns| <= MAX_USER_TURN_CORRELATIONS }

  lemma ReachedIsSound(events: seq<Event>)
    ensures Sound(Reached(events))
  {
    hide Inv, Reached;
    ReachedKeeps(events);
    TableIsBounded(events);
  }

  lemma StepIsSound(s: State, e: Event)
    requires Sound(s)
    ensures Sound(Step(s, e))
  {
    hide Inv, Step;
    StepKeeps(s, e);
    TableSize(s, e);
  }

  lemma ResumeKeepsGen(s: State, id: nat)
    ensures Resume(s, id).gen == s.gen
  {
    if id !in s.frames { return; }
    hide TerminalMatches, FinishInterrupt;
    var f := s.frames[id];
    if HasBind(f) { FinishKeepsGen(s, id, f.bind); return; }
    if f.EndThenTerminal? { hide Resume; TerminalKeepsGen(s, id); return; }
    if f.StartWait? || f.StartInterrupt? { return; }
  }

  lemma TerminalKeepsGen(s: State, id: nat)
    requires id in s.frames && s.frames[id].EndThenTerminal?
    ensures Resume(s, id).gen == s.gen
  {
    hide TerminalMatches;
  }

  lemma FinishKeepsGen(s: State, id: nat, bind: Option<UserTurn>)
    ensures FinishInterrupt(s, id, bind).gen == s.gen
  {}

  lemma CompletedKeepsGen(s: State, e: Event)
    requires e.ETurnCompleted?
    ensures Step(s, e).gen == s.gen
  {
    CompletedVars(s, e.completedId, e.completed, e.answer);
    hide TurnCompleted, OutGenAfter, TurnAfter, RenderAfter, Fails, CallsTool, Launches, ManagedSafety.TakesSlot, Barges;
  }

  lemma AssistantKeepsGen(s: State, id: TurnId, responseId: Option<ResponseId>)
    ensures AssistantTurnCreated(s, id).gen == s.gen && AssistantTurnDone(s, id, responseId).gen == s.gen
  {
    hide TerminalMatches;
    if id in s.claimed || |s.claimed| >= MAX_MANAGED_TURNS_PER_SESSION { return; }
  }

  lemma OrdinaryKeepsGen(s: State, e: Event)
    requires Ordinary(e)
    ensures Step(s, e).gen == s.gen
  {
    hide Resume, AssistantTurnCreated, AssistantTurnDone, TurnCompleted;
    match e
    case EResume(id) => ResumeKeepsGen(s, id);
    case ETurnStarted(_, _) =>
    case ETurnCompleted(_, _, _) => CompletedKeepsGen(s, e);
    case EContextAppended =>
    case EAssistantTurnCreated(id) => AssistantKeepsGen(s, id, None);
    case EAssistantTurnDone(id, responseId) => AssistantKeepsGen(s, id, responseId);
  }

  /** Along an uneventful tail what is pending stays pending until it is delivered. */
  lemma {:induction false} TailKeeps(s: State, tail: seq<Event>, c: Cargo)
    requires Sound(s) && Uneventful(tail) && (c.Question? || c.Reply?) && c.request.gen == s.gen
    requires Pending(s, c) || Delivered(s, c)
    ensures var t := After(s, tail); Sound(t) && t.gen == s.gen && (Pending(t, c) || Delivered(t, c))
    decreases |tail|
  {
    hide Step, Inv, Pending, Delivered, Delivers, Abandons, Sources;
    if tail != [] {
      var e := tail[0];
      assert Ordinary(e);
      OrdinaryKeepsGen(s, e);
      StepIsSound(s, e);
      FateStep(s, e, c);
      if Pending(s, c) { OneStepKeeps(s, e, c); }
      TailKeeps(Step(s, e), tail[1..], c);
    }
  }

  lemma OneStepKeeps(s: State, e: Event, c: Cargo)
    requires Sound(s) && Ordinary(e) && (c.Question? || c.Reply?) && c.request.gen == s.gen && Pending(s, c)
    ensures Pending(Step(s, e), c) || Delivered(Step(s, e), c)
  {
    hide Step, Inv, Pending, Delivered, Delivers;
    OrdinaryKeepsGen(s, e);
    StepConserves(s, e, c);
    DeliversIt(s, e, c);
  }

  // ----- the moves -----

  function Finishing(s: State): Event
    requires s.turn.Some?
  {
    ETurnCompleted(Some(s.turn.value.id), true, NoAnswer)
  }

  /** The executor's turn completes with nothing to say. */
  lemma TurnFinishes(s: State)
    requires Inv(s) && s.turn.Some?
    ensures var t := Step(s, Finishing(s));
      && t.turn.None? && t.queued.None? && t.turnLock == s.turnLock && t.gen == s.gen && t.hist.sent == s.hist.sent
      && (forall id: nat | id in s.frames :: id in t.frames && t.frames[id] == s.frames[id])
      && (s.queued.Some? && s.queued.value.gen == s.gen ==>
            s.nextFrame in t.frames && t.frames[s.nextFrame] == StartWait(s.queued.value))
  {
    hide Lock, Requests, Turns, Slot, Gate, Claims;
    assert forall id | id in s.frames :: id < s.nextFrame;
  }

  lemma Waiting(s: State, id: nat, r: Request)
    requires Inv(s) && id in s.frames && s.frames[id] == StartWait(r) && s.turnLock.None? && s.turn.None? && r.gen == s.gen
    ensures Delivered(Step(s, EResume(id)), Question(r))
  {
    assert (s.hist.sent + [r])[|s.hist.sent|] == r;
  }

  lemma Interrupted(s: State, id: nat, r: Request, inc: nat)
    requires id in s.frames && s.frames[id] == StartInterrupt(r, inc) && TurnOver(s, inc) && r.gen == s.gen
    ensures Delivered(Step(s, EResume(id)), Question(r))
  {
    assert (s.hist.sent + [r])[|s.hist.sent|] == r;
  }

  /** A request in the queue goes ahead when the turn it waits behind is over. */
  lemma QueuedStarts(s: State, r: Request) returns (tail: seq<Event>)
    requires Sound(s) && s.queued == Some(r) && s.turnLock.None? && r.gen == s.gen
    ensures |tail| <= 2 && Uneventful(tail) && Delivered(After(s, tail), Question(r))
  {
    assert s.turn.Some?;
    var t := Step(s, Finishing(s));
    TurnFinishes(s);
    StepIsSound(s, Finishing(s));
    hide Step, Inv, Delivered;
    tail := [Finishing(s)] + [EResume(s.nextFrame)];
    Waiting(t, s.nextFrame, r);
    AfterOne(s, Finishing(s));
    AfterOne(t, EResume(s.nextFrame));
    AfterBoth(s, [Finishing(s)], [EResume(s.nextFrame)]);
  }

  lemma QueueMove(s: State, id: nat, r: Request)
    requires Sound(s) && id in s.frames && s.frames[id] == StartWait(r) && s.turnLock.None? && r.gen == s.gen
    requires s.turn.Some? && s.turn.value.hadTool
    ensures var t := Step(s, EResume(id)); Sound(t) && t.queued == Some(r) && t.turnLock.None? && t.gen == s.gen
  {
    StepIsSound(s, EResume(id));
  }

  lemma InterruptMove(s: State, id: nat, r: Request)
    requires Sound(s) && id in s.frames && s.frames[id] == StartWait(r) && s.turnLock.None? && r.gen == s.gen
    requires s.turn.Some? && !s.turn.value.hadTool
    ensures var t := Step(s, EResume(id));
      && Sound(t) && id in t.frames && t.frames[id] == StartInterrupt(r, s.turn.value.inc) && t.gen == s.gen && t.turn.Some?
  {
    StepIsSound(s, EResume(id));
  }

  /** An interrupting start goes ahead when the turn it interrupted is over. */
  lemma InterruptingStarts(s: State, id: nat, r: Request, inc: nat) returns (tail: seq<Event>)
    requires Sound(s) && id in s.frames && s.frames[id] == StartInterrupt(r, inc) && r.gen == s.gen
    ensures |tail| <= 2 && Uneventful(tail) && Delivered(After(s, tail), Question(r))
  {
    if TurnOver(s, inc) {
      Interrupted(s, id, r, inc);
      hide Step, Inv, Delivered;
      tail := [EResume(id)];
      AfterOne(s, EResume(id));
      return;
    }
    var t := Step(s, Finishing(s));
    TurnFinishes(s);
    hide Step, Inv, Delivered;
    tail := [Finishing(s)] + [EResume(id)];
    Interrupted(t, id, r, inc);
    AfterOne(s, Finishing(s));
    AfterOne(t, EResume(id));
    AfterBoth(s, [Finishing(s)], [EResume(id)]);
  }

  lemma WaitingStarts(s: State, id: nat, r: Request) returns (tail: seq<Event>)
    requires Sound(s) && id in s.frames && s.frames[id] == StartWait(r) && s.turnLock.None? && r.gen == s.gen
    ensures |tail| <= 3 && Uneventful(tail) && Delivered(After(s, tail), Question(r))
  {
    hide Step, Inv, Delivered;
    AfterOne(s, EResume(id));
    if s.turn.None? {
      Waiting(s, id, r);
      tail := [EResume(id)];
      return;
    }
    var t := Step(s, EResume(id));
    var more;
    if s.turn.value.hadTool {
      QueueMove(s, id, r);
      more := QueuedStarts(t, r);
    } else {
      InterruptMove(s, id, r);
      more := InterruptingStarts(t, id, r, s.turn.value.inc);
    }
    tail := [EResume(id)] + more;
    AfterBoth(s, [EResume(id)], more);
  }

  lemma EndedMove(s: State, id: nat, r: Request)
    requires Sound(s) && id in s.frames && s.frames[id] == EndThenStart(r) && s.turnLock.None?
    ensures var t := Step(s, EResume(id));
      Sound(t) && id in t.frames && t.frames[id] == StartWait(r) && t.turnLock.None? && t.gen == s.gen
  {
    StepIsSound(s, EResume(id));
  }

  /** With the turn lock free, a pending current request starts. */
  lemma FreeStarts(s: State, r: Request) returns (tail: seq<Event>)
    requires Sound(s) && Pending(s, Question(r)) && s.turnLock.None? && r.gen == s.gen
    ensures |tail| <= 4 && Uneventful(tail) && Delivered(After(s, tail), Question(r))
  {
    if s.queued == Some(r) { tail := QueuedStarts(s, r); return; }
    var id: nat :| Has(s, id, Question(r));
    HolderHasLock(s, id);
    hide Step, Inv, Delivered;
    if s.frames[id].StartWait? { tail := WaitingStarts(s, id, r); return; }
    EndedMove(s, id, r);
    var more := WaitingStarts(Step(s, EResume(id)), id, r);
    tail := [EResume(id)] + more;
    AfterOne(s, EResume(id));
    AfterBoth(s, [EResume(id)], more);
  }

  lemma HolderHasLock(s: State, id: nat)
    requires Inv(s) && id in s.frames && s.turnLock.None?
    ensures !s.frames[id].StartInterrupt?
  {
    assert !HoldsLock(s.frames[id]);
  }

  // ----- the turn lock -----

  lemma ReleasedBy(s: State, id: nat)
    requires s.turnLock == Some(id) && id in s.frames
    requires s.frames[id].ForcedHold? || s.frames[id].StartDone? || (s.frames[id].InterruptHold? && TurnOver(s, s.frames[id].inc))
      || (s.frames[id].StartInterrupt? && TurnOver(s, s.frames[id].inc) && s.frames[id].request.gen != s.gen)
    ensures Step(s, EResume(id)).turnLock.None?
  {
    hide BindUserTurn;
    BindKeepsLock(Leave(s, id), if HasBind(s.frames[id]) then s.frames[id].bind else None);
  }

  lemma BindKeepsLock(s: State, bind: Option<UserTurn>)
    ensures bind.Some? ==> BindUserTurn(s, bind.value.id, bind.value.gen).turnLock == s.turnLock
  {}

  lemma StartReturns(s: State, id: nat)
    requires s.turnLock == Some(id) && id in s.frames && s.frames[id].StartRpc?
    ensures var t := Step(s, ETurnStarted(id, "t"));
      t.turnLock == Some(id) && id in t.frames && t.frames[id].StartDone? && t.gen == s.gen
  {}

  /** Whoever holds the turn lock lets it go, or is itself the current request about to start. */
  lemma LockIsReleased(s: State) returns (tail: seq<Event>)
    requires Sound(s) && s.turnLock.Some?
    ensures |tail| <= 2 && Uneventful(tail)
    ensures var t, f := After(s, tail), s.frames[s.turnLock.value];
      t.turnLock.None? || (f.StartInterrupt? && f.request.gen == s.gen && Delivered(t, Question(f.request)))
  {
    var id := s.turnLock.value;
    assert id in s.frames && HoldsLock(s.frames[id]);
    var f := s.frames[id];
    hide Step, Inv, Delivered;
    if f.StartInterrupt? && f.request.gen == s.gen {
      tail := InterruptingStarts(s, id, f.request, f.inc);
    } else if f.StartRpc? {
      StartReturns(s, id);
      ReleasedBy(Step(s, ETurnStarted(id, "t")), id);
      tail := [ETurnStarted(id, "t")] + [EResume(id)];
      AfterOne(s, ETurnStarted(id, "t"));
      AfterOne(Step(s, ETurnStarted(id, "t")), EResume(id));
      AfterBoth(s, [ETurnStarted(id, "t")], [EResume(id)]);
    } else if f.ForcedHold? || f.StartDone? || TurnOver(s, f.inc) {
      ReleasedBy(s, id);
      tail := [EResume(id)];
      AfterOne(s, EResume(id));
    } else {
      TurnFinishes(s);
      ReleasedBy(Step(s, Finishing(s)), id);
      tail := [Finishing(s)] + [EResume(id)];
      AfterOne(s, Finishing(s));
      AfterOne(Step(s, Finishing(s)), EResume(id));
      AfterBoth(s, [Finishing(s)], [EResume(id)]);
    }
  }

  lemma OneQuestion(s: State, id: nat, r: Request)
    requires Inv(s) && Pending(s, Question(r)) && id in s.frames && s.frames[id].StartInterrupt? && s.frames[id].request.gen == r.gen
    ensures s.frames[id].request == r
  {
    hide Inv;
    PlaceIsStage(s, Question(r));
    PlaceIsStage(s, Question(s.frames[id].request));
    assert Has(s, id, Question(s.frames[id].request));
  }

  lemma PendingStarts(s: State, r: Request) returns (tail: seq<Event>)
    requires Sound(s) && Pending(s, Question(r)) && r.gen == s.gen
    ensures |tail| <= 6 && Uneventful(tail) && Delivered(After(s, tail), Question(r))
  {
    if s.turnLock.None? { tail := FreeStarts(s, r); return; }
    var id := s.turnLock.value;
    assert id in s.frames;
    hide Step, Inv, Delivered, Pending;
    tail := LockIsReleased(s);
    var t := After(s, tail);
    TailKeeps(s, tail, Question(r));
    if s.frames[id].StartInterrupt? && s.frames[id].request.gen == s.gen { OneQuestion(s, id, r); }
    if Delivered(t, Question(r)) { return; }
    var more := FreeStarts(t, r);
    AfterBoth(s, tail, more);
    tail := tail + more;
  }

  /**
   Whatever state the socket is in, a current request that waits can still start: at most six events, in which
   nothing fails and no generation begins, bring it to turn/start. Neither the lock, the queue nor the turn it
   interrupts can hold it for ever.
   */
  lemma RequestCanStart(events: seq<Event>, r: Request)
    requires Pending(Reached(events), Question(r)) && r.gen == Reached(events).gen
    ensures exists tail :: |tail| <= 6 && Uneventful(tail) && r in Reached(events + tail).hist.sent
  {
    hide Step, Inv, Reached, Pending, Uneventful;
    ReachedIsSound(events);
    var tail := PendingStarts(Reached(events), r);
    ReachedAfter(events, tail);
  }

  // ----- answers -----

  lemma SlotIsTaken(s: State, id: nat, r: Request)
    requires id in s.frames && s.frames[id] == EndThenTake(r) && r.gen == s.gen
    ensures Delivered(Step(s, EResume(id)), Reply(r))
  {
    assert (s.hist.spoken + [r])[|s.hist.spoken|] == r;
  }

  lemma QuietMoves(s: State, id: nat, r: Request)
    requires id in s.frames && r.gen == s.gen
    ensures s.frames[id] == RenderQuiet(r) ==> Step(s, EResume(id)) == s.(frames := s.frames[id := EndThenTake(r)])
    ensures s.frames[id].RenderWait? && s.frames[id].request == r && s.render.None? ==>
      Step(s, EResume(id)) == s.(frames := s.frames[id := RenderQuiet(r)])
  {}

  /** With the slot empty, a pending current answer takes it. */
  lemma EmptySlotIsTaken(s: State, r: Request) returns (tail: seq<Event>)
    requires Pending(s, Reply(r)) && s.render.None? && r.gen == s.gen
    ensures |tail| <= 3 && Uneventful(tail) && Delivered(After(s, tail), Reply(r))
  {
    var id: nat :| Has(s, id, Reply(r));
    hide Step, Delivered, Pending;
    var e := EResume(id);
    var quiet, ended := s.(frames := s.frames[id := RenderQuiet(r)]), s.(frames := s.frames[id := EndThenTake(r)]);
    QuietMoves(s, id, r);
    QuietMoves(quiet, id, r);
    assert quiet.(frames := quiet.frames[id := EndThenTake(r)]) == ended;
    AfterOne(ended, e);
    AfterOne(quiet, e);
    AfterOne(s, e);
    AfterBoth(quiet, [e], [e]);
    AfterBoth(s, [e], [e]);
    AfterBoth(s, [e], [e] + [e]);
    if s.frames[id].EndThenTake? { SlotIsTaken(s, id, r); tail := [e]; return; }
    SlotIsTaken(ended, id, r);
    tail := if s.frames[id].RenderQuiet? then [e] + [e] else [e] + ([e] + [e]);
  }

  /** A state with an acknowledged, started render in the slot. */
  predicate Sounding(s: State) {
    s.render.Some? && s.render.value.ack && s.render.value.started && s.render.value.turnId.Some?
    && s.render.value.responseId.None?
  }

  lemma Acknowledged(s: State)
    requires Inv(s) && s.render.Some?
    ensures var t := Step(s, EContextAppended);
      && t.render == Some(s.render.value.(ack := true)) && t.claimed == s.claimed && (s.render.value.started ==> Sounding(t))
  {}

  lemma Starts(s: State, id: TurnId)
    requires Inv(s) && s.render.Some? && s.render.value.ack && !s.render.value.started
    requires id !in s.claimed && |s.claimed| < MAX_MANAGED_TURNS_PER_SESSION
    ensures Sounding(Step(s, EAssistantTurnCreated(id)))
  {
    NotStartedHasNoId(s);
    hide Inv, Step, VarsAfter;
    StepMoves(s, EAssistantTurnCreated(id));
    BindsAfter(s, EAssistantTurnCreated(id));
  }

  lemma NotStartedHasNoId(s: State)
    requires Inv(s) && s.render.Some? && !s.render.value.started
    ensures s.render.value.turnId.None? && s.render.value.responseId.None?
  {}

  lemma Ends(s: State)
    requires Sound(s) && Sounding(s)
    ensures var id := s.render.value.turnId.value;
      var t := Step(s, EAssistantTurnDone(id, None));
      Sound(t) && Step(t, EResume(s.nextFrame)).render.None?
  {
    var id := s.render.value.turnId.value;
    var t := Step(s, EAssistantTurnDone(id, None));
    assert t == Spawn(s, EndThenTerminal(id, None, s.outGen == Some(s.gen)));
    StepIsSound(s, EAssistantTurnDone(id, None));
  }

  lemma SoundingEnds(s: State) returns (tail: seq<Event>)
    requires Sound(s) && Sounding(s)
    ensures |tail| <= 2 && Uneventful(tail) && After(s, tail).render.None?
  {
    var e := EAssistantTurnDone(s.render.value.turnId.value, None);
    Ends(s);
    hide Step, Inv;
    tail := [e] + [EResume(s.nextFrame)];
    AfterOne(s, e);
    AfterOne(Step(s, e), EResume(s.nextFrame));
    AfterBoth(s, [e], [EResume(s.nextFrame)]);
  }

  /** The occupant can still be acknowledged, started and ended. */
  predicate CanSound(s: State, id: TurnId) {
    s.render.Some? && !s.render.value.started ==> id !in s.claimed && |s.claimed| < MAX_MANAGED_TURNS_PER_SESSION
  }

  lemma SlotEmpties(s: State, id: TurnId) returns (tail: seq<Event>)
    requires Sound(s) && s.render.Some? && CanSound(s, id)
    ensures |tail| <= 4 && Uneventful(tail) && After(s, tail).render.None?
  {
    var t := Step(s, EContextAppended);
    Acknowledged(s);
    StepIsSound(s, EContextAppended);
    AfterOne(s, EContextAppended);
    if !s.render.value.started {
      Starts(t, id);
      StepIsSound(t, EAssistantTurnCreated(id));
    }
    hide Step, Inv, Sounding;
    if s.render.value.started {
      var more := SoundingEnds(t);
      AfterBoth(s, [EContextAppended], more);
      tail := [EContextAppended] + more;
    } else {
      var e := EAssistantTurnCreated(id);
      var more := SoundingEnds(Step(t, e));
      AfterOne(t, e);
      AfterBoth(t, [e], more);
      AfterBoth(s, [EContextAppended], [e] + more);
      tail := [EContextAppended] + ([e] + more);
    }
  }

  /**
   Whatever state the socket is in, a current answer that waits can still be spoken: at most seven events, in
   which nothing fails and no generation begins, bring it to append_speech with its text. The occupant of the
   slot, if any, needs a turn id that is still free, unless it has started already.
   */
  lemma AnswerCanBeSpoken(events: seq<Event>, r: Request, id: TurnId)
    requires Pending(Reached(events), Reply(r)) && r.gen == Reached(events).gen && CanSound(Reached(events), id)
    ensures exists tail :: |tail| <= 7 && Uneventful(tail) && r in Reached(events + tail).hist.spoken
  {
    var s := Reached(events);
    hide Step, Inv, Reached, Pending, Uneventful;
    ReachedIsSound(events);
    var tail := [];
    NoEvents();
    if s.render.Some? {
      tail := SlotEmpties(s, id);
      TailKeeps(s, tail, Reply(r));
    }
    var t := After(s, tail);
    ReachedAfter(events, tail);
    if Delivered(t, Reply(r)) { return; }
    var more := EmptySlotIsTaken(t, r);
    AfterBoth(s, tail, more);
    BothUneventful(tail, more);
    ReachedAfter(events, tail + more);
  }

  lemma NoEvents() ensures Uneventful([]) {}

  lemma BothUneventful(tail: seq<Event>, more: seq<Event>)
    requires Uneventful(tail) && Uneventful(more)
    ensures Uneventful(tail + more)
  {}

  // ----- interruptions -----

  /** An utterance, a user turn of its own and a device interrupt aim at the turn that was active as they came. */
  lemma NewGenerationAimsAtItsTurn(s: State, e: Event)
    requires Begins(s, e) && !Forced(e) && !e.EDeviceText?
    ensures var t := Step(s, e);
      s.nextFrame in t.frames && t.frames[s.nextFrame].EndThenInterrupt? && t.frames[s.nextFrame].owner == CurrentOwner(s)
  {
    if e.ESpeechStarted? { return; }
    if e.EDeviceInterrupt? { return; }
    assert e.EUserTurnCreated?;
  }

  predicate AimsAt(f: Frame, owner: Owner) { (f.EndThenInterrupt? || f.InterruptWait?) && f.owner == owner }

  lemma AimedInterrupts(s: State, id: nat)
    requires s.turn.Some? && !s.turn.value.hadTool && s.turnLock.None? && id in s.frames
    requires s.frames[id].InterruptWait? && s.frames[id].owner == CurrentOwner(s)
    ensures var t := Step(s, EResume(id)); s.turn.value.inc in t.hist.barged && Interrupting(t, s.turn.value.inc)
  {}

  lemma EndedInterrupt(s: State, id: nat)
    requires id in s.frames && s.frames[id].EndThenInterrupt?
    ensures Step(s, EResume(id)) == s.(frames := s.frames[id := InterruptWait(s.frames[id].owner, s.frames[id].bind)])
  {}

  /** With the lock free, and the turn still the one aimed at and without a tool, the interruption reaches it. */
  lemma InterruptReachesItsTurn(s: State, id: nat)
    requires s.turn.Some? && !s.turn.value.hadTool && s.turnLock.None?
    requires id in s.frames && AimsAt(s.frames[id], CurrentOwner(s))
    ensures var t := After(s, if s.frames[id].EndThenInterrupt? then [EResume(id)] + [EResume(id)] else [EResume(id)]);
      s.turn.value.inc in t.hist.barged && Interrupting(t, s.turn.value.inc)
  {
    var e := EResume(id);
    if s.frames[id].EndThenInterrupt? {
      EndedInterrupt(s, id);
      var t := s.(frames := s.frames[id := InterruptWait(s.frames[id].owner, s.frames[id].bind)]);
      AimedInterrupts(t, id);
      hide Step;
      AfterOne(s, e);
      AfterOne(t, e);
      AfterBoth(s, [e], [e]);
    } else {
      AimedInterrupts(s, id);
      hide Step;
      AfterOne(s, e);
    }
  }
}
