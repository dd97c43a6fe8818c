/**
 How a render ends: the terminal of its turn retires it exactly if it names no response. One that names
 a response leaves the slot taken, and with it every later answer unspoken.
 */
module ManagedTerminal {
  import opened Wrappers
  import opened ManagedControl
  import opened ManagedInvariant
  import opened ManagedSafety
  import opened ManagedFrames

  // ----- the terminal of a render -----

  /** A managed render records no response, so a terminal that names one matches nothing. */
  lemma NamedTerminalMatchesNothing(events: seq<Event>, responseId: Option<ResponseId>, turnId: Option<TurnId>)
    requires responseId.Some?
    ensures !TerminalMatches(Reached(events), responseId, turnId)
  {
    ReachedKeeps(events);
  }

  lemma HandlerRetires(s: State, id: TurnId, responseId: Option<ResponseId>)
    requires Inv(s) && TerminalMatches(s, None, Some(id))
    ensures var t := Step(s, EAssistantTurnDone(id, responseId));
      Step(t, EResume(s.nextFrame)).render.None? <==> TerminalMatches(s, responseId, Some(id))
  {
    hide Frames, Lock, Requests, Turns, Slot, Gate, Claims;
    NextFrameIsFree(s);
  }

  lemma NextFrameIsFree(s: State)
    requires Inv(s)
    ensures s.nextFrame !in s.frames
  {}

  // ----- a handler that runs later -----

  /** The terminal's handler waits in frame `f`, and render `inc`, if it is still there, is the one it is for. */
  predicate Waits(s: State, f: nat, inc: nat, id: TurnId) {
    && f < s.nextFrame && f in s.frames && s.frames[f].EndThenTerminal? && s.frames[f].id == id && s.frames[f].responseId.None?
    && inc < s.renderCount
    && (s.render.Some? && s.render.value.inc == inc ==> TerminalMatches(s, None, Some(id)))
  }

  lemma WaitsStep(s: State, e: Event, f: nat, inc: nat, id: TurnId)
    requires Inv(s) && Waits(s, f, inc, id) && !Touches(e, f)
    ensures Waits(Step(s, e), f, inc, id)
  {
    hide Step, Frames, Lock, Requests, Turns, Slot, Gate, Claims, GenerationDelta, HistoryDelta, TurnDelta, SlotDelta;
    StepDelta(s, e);
    StepLater(s, e, f);
  }

  lemma {:induction false} WaitsUntilResumed(events: seq<Event>, more: seq<Event>, f: nat, inc: nat, id: TurnId)
    requires Waits(Reached(events), f, inc, id) && forall e | e in more :: !Touches(e, f)
    ensures Waits(Reached(events + more), f, inc, id)
    decreases |more|
  {
    hide Step, Waits, Inv;
    if more == [] { assert events + more == events; return; }
    var front := more[..|more| - 1];
    WaitsUntilResumed(events, front, f, inc, id);
    ReachedKeeps(events + front);
    WaitsStep(Reached(events + front), more[|more| - 1], f, inc, id);
    assert (events + more)[..|events + more| - 1] == events + front;
  }

  lemma HandlerStarts(s: State, id: TurnId)
    requires Inv(s) && TerminalMatches(s, None, Some(id))
    ensures Waits(Step(s, EAssistantTurnDone(id, None)), s.nextFrame, s.render.value.inc, id)
  {}

  /** Whenever the handler runs, the render it is for is gone afterwards. */
  lemma HandlerEnds(s: State, f: nat, inc: nat, id: TurnId)
    requires Waits(s, f, inc, id)
    ensures var t := Step(s, EResume(f)); t.render.Some? ==> t.render.value.inc != inc
  {}

  /**
   The terminal of the turn that a started render is bound to retires that render exactly if it names no
   response. One that names a response changes nothing at all. For one that does not, a handler waits for
   its end_output, through whatever happens meanwhile, and once it has run the render is gone.
   */
  lemma TerminalRetiresIffUnnamed(events: seq<Event>, more: seq<Event>, id: TurnId, responseId: Option<ResponseId>)
    requires TerminalMatches(Reached(events), None, Some(id))
    requires forall e | e in more :: !Touches(e, Reached(events).nextFrame)
    ensures var s, done := Reached(events), EAssistantTurnDone(id, responseId);
      && (Step(Step(s, done), EResume(s.nextFrame)).render.None? <==> responseId.None?)
      && (responseId.Some? ==> Step(s, done) == s)
      && (responseId.None? ==>
            var u := Reached(events + [done] + more);
            && s.nextFrame in u.frames && u.frames[s.nextFrame].EndThenTerminal?
            && !SameRender(s, Step(u, EResume(s.nextFrame))))
  {
    ReachedKeeps(events);
    var s, done := Reached(events), EAssistantTurnDone(id, responseId);
    HandlerRetires(s, id, responseId);
    if responseId.Some? { NamedTerminalMatchesNothing(events, responseId, Some(id)); return; }
    HandlerStarts(s, id);
    assert (events + [done])[..|events|] == events;
    hide Step, Waits, Inv, TerminalMatches;
    WaitsUntilResumed(events + [done], more, s.nextFrame, s.render.value.inc, id);
    HandlerEnds(Reached(events + [done] + more), s.nextFrame, s.render.value.inc, id);
    WaitsInFrame(Reached(events + [done] + more), s.nextFrame, s.render.value.inc, id);
  }

  lemma WaitsInFrame(s: State, f: nat, inc: nat, id: TurnId)
    requires Waits(s, f, inc, id)
    ensures f in s.frames && s.frames[f].EndThenTerminal?
  {}

  // ----- a slot that stays taken -----

  /** The render is bound to turn `id`, and no handler of its terminal is under way. */
  predicate Wedged(s: State, id: TurnId) {
    && TerminalMatches(s, None, Some(id))
    && forall f | f in s.frames && s.frames[f].EndThenTerminal? :: !TerminalMatches(s, s.frames[f].responseId, Some(s.frames[f].id))
  }

  lemma WedgeStep(s: State, e: Event, id: TurnId)
    requires Inv(s) && Wedged(s, id) && e != EAssistantTurnDone(id, None) && !FailsOccupant(s, e)
    ensures Wedged(Step(s, e), id) && SameRender(s, Step(s, e)) && Step(s, e).hist.takes == s.hist.takes
  {
    hide Step, Frames, Lock, Requests, Turns, Gate, Claims, GenerationDelta, HistoryDelta, TurnDelta, SlotDelta;
    StepDelta(s, e);
    SlotReleasedOnlyByItsTerminal(s, e);
    SlotTakenWhenEmpty(s, e);
  }

  predicate Harmless(s: State, e: Event, id: TurnId) { e != EAssistantTurnDone(id, None) && !FailsOccupant(s, e) }

  ghost predicate Undisturbed(events: seq<Event>, more: seq<Event>, id: TurnId) {
    forall k: nat :: k < |more| ==> Harmless(Reached(events + more[..k]), more[k], id)
  }

  lemma UndisturbedFront(events: seq<Event>, more: seq<Event>, id: TurnId)
    requires more != [] && Undisturbed(events, more, id)
    ensures var front := more[..|more| - 1];
      && Undisturbed(events, front, id) && Harmless(Reached(events + front), more[|more| - 1], id)
      && Reached(events + more) == Step(Reached(events + front), more[|more| - 1])
  {
    hide Step, Harmless;
    var front := more[..|more| - 1];
    forall k: nat | k < |front| ensures Harmless(Reached(events + front[..k]), front[k], id) { assert front[..k] == more[..k]; }
    assert (events + more)[..|events + more| - 1] == events + front;
  }

  /**
   Until a terminal of its turn comes that names no response, or its own append_speech fails, the render
   keeps the slot and nothing else is rendered, whatever happens.
   */
  lemma {:induction false} WedgeLasts(events: seq<Event>, more: seq<Event>, id: TurnId)
    requires Wedged(Reached(events), id) && Undisturbed(events, more, id)
    ensures Wedged(Reached(events + more), id) && SameRender(Reached(events), Reached(events + more))
    ensures Reached(events + more).hist.takes == Reached(events).hist.takes
    decreases |more|
  {
    hide Step, Wedged, Undisturbed, Reached, Inv;
    if more == [] { assert events + more == events; MatchedIsHeld(Reached(events), id); return; }
    var front := more[..|more| - 1];
    UndisturbedFront(events, more, id);
    WedgeLasts(events, front, id);
    ReachedKeeps(events + front);
    WedgeStep(Reached(events + front), more[|more| - 1], id);
  }

  lemma MatchedIsHeld(s: State, id: TurnId)
    requires Wedged(s, id)
    ensures SameRender(s, s)
  {}

  // ----- a run that wedges the slot -----

  lemma Twice(events: seq<Event>, e: Event, f: Event)
    ensures Reached(events + [e, f]) == Step(Step(Reached(events), e), f)
  {
    hide Step;
    assert (events + [e, f])[..|events| + 1] == events + [e] && (events + [e])[..|events|] == events;
  }

  /** The device's text is generation 1, and its one executor turn answers. */
  function Asked(): seq<Event> { [EDeviceText("hi"), EResume(0)] + [EResume(0), ETurnStarted(0, "t")] }

  function Answered(): seq<Event> { Asked() + [EResume(0), ETurnCompleted(Some("t"), true, Speak("yes"))] }

  /** The answer is rendered by assistant turn "a", whose terminal names a response. */
  function WedgingRun(): seq<Event> {
    Answered() + [EResume(1), EResume(1)] + [EContextAppended, EAssistantTurnCreated("a")]
    + [EAssistantTurnDone("a", Some("r")), EDeviceText("hello?")]
  }

  function AskedState(): State {
    Init().(gen := 1, transcriptHandled := true, nextFrame := 1, frames := map[0 := StartDone],
            turn := Some(Turn("t", 1, 0, false, false)), turnCount := 1, turnLock := Some(0),
            hist := Init().hist.(stage := map[1 := Running(0)], starts := [1], sent := [Request(1, "hi")]))
  }

  lemma AskedFirst()
    ensures var s1 := Init().(gen := 1, transcriptHandled := true, nextFrame := 1, hist := Init().hist.(stage := map[1 := Carried(0)]));
      Step(Step(Init(), EDeviceText("hi")), EResume(0)) == s1.(frames := map[0 := StartWait(Request(1, "hi"))])
  {
    var s1 := Init().(gen := 1, transcriptHandled := true, nextFrame := 1, frames := map[0 := EndThenStart(Request(1, "hi"))],
                      hist := Init().hist.(stage := map[1 := Carried(0)]));
    assert Step(Init(), EDeviceText("hi")) == s1;
  }

  lemma AskedSecond(s: State)
    requires s == Init().(gen := 1, transcriptHandled := true, nextFrame := 1, hist := Init().hist.(stage := map[1 := Carried(0)]),
                          frames := map[0 := StartWait(Request(1, "hi"))])
    ensures Step(Step(s, EResume(0)), ETurnStarted(0, "t")) == AskedState()
  {
    var r := Request(1, "hi");
    var s3 := s.(frames := map[0 := StartRpc(r)], starting := true, turnLock := Some(0),
                 hist := s.hist.(stage := map[1 := Starting(0)], starts := [1], sent := [r]));
    assert Step(s, EResume(0)) == s3;
  }

  lemma AskedIsReached()
    ensures Reached(Asked()) == AskedState()
  {
    hide Reached;
    var r := Request(1, "hi");
    var s1 := Init().(gen := 1, transcriptHandled := true, nextFrame := 1, hist := Init().hist.(stage := map[1 := Carried(0)]));
    var s2 := s1.(frames := map[0 := StartWait(r)]);
    hide Step;
    Twice([], EDeviceText("hi"), EResume(0));
    assert [] + [EDeviceText("hi"), EResume(0)] == [EDeviceText("hi"), EResume(0)];
    ReachedNothing();
    Twice([EDeviceText("hi"), EResume(0)], EResume(0), ETurnStarted(0, "t"));
    AskedFirst();
    AskedSecond(s2);
  }

  lemma ReachedNothing() ensures Reached([]) == Init() {}

  function AnsweredState(): State {
    var s := AskedState();
    s.(turn := None, turnLock := None, nextFrame := 2, frames := map[1 := RenderQuiet(Request(1, "yes"))],
       hist := s.hist.(stage := map[1 := Answering(1)], completions := [1]))
  }

  lemma AnsweredIsReached()
    ensures Reached(Answered()) == AnsweredState()
  {
    hide Reached;
    AskedIsReached();
    var done := ETurnCompleted(Some("t"), true, Speak("yes"));
    Twice(Asked(), EResume(0), done);
    var s := AskedState();
    assert Step(s, EResume(0)) == s.(turnLock := None, frames := map[]);
    assert Step(s.(turnLock := None, frames := map[]), done) == AnsweredState();
  }

  function StartedState(): State {
    var s := AnsweredState();
    s.(frames := map[1 := RenderRpc(1, 0)], renderCount := 1, outGen := Some(1), claimed := {"a"},
       render := Some(Render(1, 0, true, true, None, Some("a"), false, false)),
       hist := s.hist.(stage := map[1 := Rendered(0)], takes := [1], spoken := [Request(1, "yes")],
                      claims := map["a" := Claim.Bound(0)], bindings := ["a"]))
  }

  lemma TakesTheSlot(s: State)
    requires s == AnsweredState()
    ensures Step(Step(s, EResume(1)), EResume(1))
      == s.(frames := map[1 := RenderRpc(1, 0)], renderCount := 1,
            render := Some(Render(1, 0, false, false, None, None, false, false)),
            hist := s.hist.(stage := map[1 := Rendered(0)], takes := [1], spoken := [Request(1, "yes")]))
  {
    assert Step(s, EResume(1)) == s.(frames := map[1 := EndThenTake(Request(1, "yes"))]);
  }

  lemma StartsTheRender(s: State)
    requires s == AnsweredState().(frames := map[1 := RenderRpc(1, 0)], renderCount := 1,
                                   render := Some(Render(1, 0, false, false, None, None, false, false)),
                                   hist := AnsweredState().hist.(stage := map[1 := Rendered(0)], takes := [1],
                                                                     spoken := [Request(1, "yes")]))
    ensures Step(Step(s, EContextAppended), EAssistantTurnCreated("a")) == StartedState()
  {
    assert Step(s, EContextAppended) == s.(render := Some(s.render.value.(ack := true)));
  }

  /** The terminal came and went; a newer request is waiting behind a slot that is still taken. */
  lemma SlotWedges()
    ensures var s := Reached(WedgingRun());
      Wedged(s, "a") && s.gen == 2 && s.render.Some? && s.render.value.gen == 1 && !s.failed
  {
    hide Reached, Wedged;
    var run := Answered() + [EResume(1), EResume(1)];
    AnsweredIsReached();
    Twice(Answered(), EResume(1), EResume(1));
    TakesTheSlot(AnsweredState());
    Twice(run, EContextAppended, EAssistantTurnCreated("a"));
    StartsTheRender(Reached(run));
    Twice(run + [EContextAppended, EAssistantTurnCreated("a")], EAssistantTurnDone("a", Some("r")), EDeviceText("hello?"));
    TextBehindWedge();
  }

  lemma TextBehindWedge()
    ensures var s := Step(Step(StartedState(), EAssistantTurnDone("a", Some("r"))), EDeviceText("hello?"));
      Wedged(s, "a") && s.gen == 2 && s.render.Some? && s.render.value.gen == 1 && !s.failed
  {
    var s := StartedState();
    assert Step(s, EAssistantTurnDone("a", Some("r"))) == s;
    var u := s.(gen := 2, outGen := None, transcriptHandled := true,
                render := Some(s.render.value.(cancelRequested := true)),
                hist := s.hist.(stage := s.hist.stage[2 := Carried(2)]));
    assert Step(s, EDeviceText("hello?")) == Spawn(u, EndThenStart(Request(2, "hello?")));
  }
}
