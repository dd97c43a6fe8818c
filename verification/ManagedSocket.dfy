/**
 The managed socket as a whole: its control plane and its speaking gate, interleaved step by step.
 The gate reads the two generation variables the control plane owns.
 */
module ManagedSocket {
  import opened Wrappers
  import Control = ManagedControl
  import ControlInvariant = ManagedInvariant
  import Safety = ManagedSafety
  import Gate = OutputGate
  import GateSafety = OutputGateSafety

  datatype State = State(control: Control.State, gate: Gate.State)

  datatype Event = ControlEvent(control: Control.Event) | GateEvent(gate: Gate.Event)

  function Init(): State { State(Control.Init(), Gate.Init(true)) }

  function Backend(s: State): Gate.Backend { Gate.Backend(s.control.gen, s.control.outGen) }

  function Step(s: State, e: Event): State {
    match e
    case ControlEvent(c) => s.(control := Control.Step(s.control, c))
    case GateEvent(g) => s.(gate := Gate.Step(s.gate, g, Backend(s)))
  }

  function Reached(run: seq<Event>): State {
    if run == [] then Init() else Step(Reached(run[..|run| - 1]), run[|run| - 1])
  }

  /** Binary frames are stamped with generations that never go back, and never lead the current one. */
  ghost predicate Chronological(trace: seq<Gate.Out>, gen: nat) {
    && (forall o | o in trace && o.Binary? :: o.guard.Some? && o.guard.value <= gen)
    && (forall i, j :: 0 <= i < j < |trace| && trace[i].Binary? && trace[j].Binary? ==>
          trace[i].guard.Some? && trace[j].guard.Some? && trace[i].guard.value <= trace[j].guard.value)
  }

  ghost predicate Inv(s: State) {
    && ControlInvariant.Inv(s.control) && GateSafety.Inv(s.gate) && s.gate.managed
    && Chronological(s.gate.trace, s.control.gen)
  }

  lemma ControlKeeps(s: State, e: Control.Event)
    requires Inv(s)
    ensures Inv(Step(s, ControlEvent(e)))
  {
    hide ControlInvariant.Inv, GateSafety.Inv, Control.Step, Gate.Step;
    ControlInvariant.StepKeeps(s.control, e);
    Safety.HistoryGrows(s.control, e);
  }

  lemma GateKeeps(s: State, e: Gate.Event)
    requires Inv(s)
    ensures Inv(Step(s, GateEvent(e)))
  {
    hide ControlInvariant.Inv, GateSafety.Inv, Gate.Step;
    GateSafety.StepKeeps(s.gate, e, Backend(s));
    GateSafety.StepWrites(s.gate, e, Backend(s));
    var was, now := s.gate.trace, Gate.Step(s.gate, e, Backend(s)).trace;
    if |now| > |was| {
      var o := now[|was|];
      assert now == was + [o];
      if o.Binary? { GateSafety.BinaryWritten(s.gate, e, Backend(s), o); }
    } else {
      assert now == was;
    }
  }

  lemma InitInv()
    ensures Inv(Init())
  {
    ControlInvariant.InitInv();
    GateSafety.InitInv(true);
  }

  lemma {:induction false} ReachedKeeps(run: seq<Event>)
    ensures Inv(Reached(run))
  {
    hide Inv, Step;
    if run == [] {
      InitInv();
    } else {
      var e := run[|run| - 1];
      ReachedKeeps(run[..|run| - 1]);
      if e.ControlEvent? { ControlKeeps(Reached(run[..|run| - 1]), e.control); }
      else { GateKeeps(Reached(run[..|run| - 1]), e.gate); }
    }
  }

  /** The slot holds an acknowledged, started render of the current generation, bound to an assistant turn. */
  predicate Rendering(c: Control.State) {
    c.render.Some? && c.render.value.gen == c.gen && c.render.value.ack && c.render.value.started
    && c.render.value.turnId.Some?
  }

  /**
   Stale audio never reaches the speaker. In any run of any length, a binary frame is written only
   while the current generation is rendering, and carries only audio received under that generation.
   The exception is a generation whose append_speech call failed, which ends the socket.
   */
  lemma NoStaleAudio(run: seq<Event>, e: Event, o: Gate.Out)
    requires o.Binary? && Step(Reached(run), e).gate.trace == Reached(run).gate.trace + [o]
    ensures var c := Reached(run).control;
      && o.guard == c.outGen == Some(c.gen)
      && (forall p | p in o.pieces :: p.from == Some(c.gen))
      && (c.gen !in c.hist.failedRenders ==> Rendering(c))
  {
    hide Gate.Step, ControlInvariant.Frames, ControlInvariant.Lock, ControlInvariant.Requests, ControlInvariant.Turns,
      ControlInvariant.Claims, GateSafety.Inv;
    ReachedKeeps(run);
    var s := Reached(run);
    if e.GateEvent? { GateSafety.BinaryWritten(s.gate, e.gate, Backend(s), o); }
  }

  /** Audio is kept only if it arrives while the current generation is rendering. */
  lemma AudioIsReceivedWhileRendering(run: seq<Event>, e: Event)
    requires !Reached(run).gate.audio.Holding? && Step(Reached(run), e).gate.audio.Holding?
    ensures var c := Reached(run).control;
      && Step(Reached(run), e).gate.audio.piece.from == c.outGen == Some(c.gen)
      && (c.gen !in c.hist.failedRenders ==> Rendering(c))
  {
    hide Gate.Step, ControlInvariant.Frames, ControlInvariant.Lock, ControlInvariant.Requests, ControlInvariant.Turns,
      ControlInvariant.Claims, GateSafety.Inv;
    ReachedKeeps(run);
    var s := Reached(run);
    if e.GateEvent? { GateSafety.ReceivedIsCurrent(s.gate, e.gate, Backend(s)); }
  }

  /** Once a newer generation has begun, no frame of an older one is written, ever. */
  lemma DeviceHearsGenerationsInOrder(run: seq<Event>)
    ensures Chronological(Reached(run).gate.trace, Reached(run).control.gen)
  {
    hide ControlInvariant.Inv, GateSafety.Inv, Reached;
    ReachedKeeps(run);
  }
}
