/**
 The receive queue keeps moving: the complete causes of each of its variables, and a way to the receiver for every
 item it holds.
 */
module TransportProgress {
  import opened Wrappers
  import opened Transport

  // ----- the causes -----

  predicate Accepts(s: State, e: Event) { e.EPut? && !Full(s) }

  /** A receive is served from the replay slot at once. */
  predicate Replays(s: State, e: Event) { e.EBeginReceive? && s.receiver.Idle? && !s.failed && s.replay != [] }

  predicate Waits(s: State, e: Event) { e.EBeginReceive? && s.receiver.Idle? && !s.failed && s.replay == [] }

  predicate Wins(s: State, e: Event) { e.EWin? && s.receiver.Waiting? && s.queue != [] }

  /** The receive resumes with the item it has won, and no failure was seen first. */
  predicate HandsOut(s: State, e: Event) { e.EEndReceive? && s.receiver.Won? && !(s.failed && e.failureSeen) }

  predicate Drains(s: State, e: Event) { e.EDrain? && !s.failed }

  /** A cancelled receive has room to put its item back. */
  predicate PutsBack(s: State, e: Event) { e.ECancel? && s.receiver.Won? && s.replay == [] && !Full(s) }

  /** An open transport fails: the queue is full, a fault is reported, or a won item cannot be put back. */
  predicate Fails(s: State, e: Event) {
    && !s.closed
    && ((e.EPut? && Full(s)) || e.EFail? || (e.ECancel? && s.receiver.Won? && (s.replay != [] || Full(s))))
  }

  predicate Ends(s: State, e: Event) {
    || (e.EEndReceive? && (s.receiver.Won? || (s.failed && e.failureSeen)))
    || (e.ETimeOut? && s.receiver.Waiting?) || e.ECancel?
  }

  function ReceiverAfter(s: State, e: Event): Receiver {
    if Waits(s, e) then Waiting
    else if Wins(s, e) then Won(s.queue[0])
    else if Ends(s, e) then Idle
    else s.receiver
  }

  /** What an event hands out. */
  function HandedOut(s: State, e: Event): seq<nat> {
    if Replays(s, e) then [s.replay[0]]
    else if HandsOut(s, e) then [s.receiver.item]
    else if Drains(s, e) then s.replay + s.queue
    else []
  }

  /**
   For each variable the complete list of what changes it: an item is accepted exactly while there is room, handed out
   by the replay slot, a resumed receive or a drain, and put back by a cancelled one; the transport fails only when it
   is open, and on a full queue, a fault, or an item that cannot be put back.
   */
  lemma StepMoves(s: State, e: Event)
    ensures var t := Step(s, e);
      && t.receiver == ReceiverAfter(s, e)
      && t.delivered == s.delivered + HandedOut(s, e)
      && t.queue == (if Accepts(s, e) then s.queue + [s.accepted] else if Wins(s, e) then s.queue[1..]
                     else if Drains(s, e) then [] else s.queue)
      && t.replay == (if Replays(s, e) then s.replay[1..] else if PutsBack(s, e) then [s.receiver.item]
                      else if Drains(s, e) then [] else s.replay)
      && t.accepted == (if Accepts(s, e) then s.accepted + 1 else s.accepted)
      && (t.failed <==> s.failed || Fails(s, e)) && (t.closed <==> s.closed || e.EClose?)
  {
    assert HandedOut(s, e) == [] ==> s.delivered + HandedOut(s, e) == s.delivered;
    if e.ECancel? && s.receiver.Won? { assert s.replay == [] ==> [s.receiver.item] + s.replay == [s.receiver.item]; }
  }

  // ----- every item can be received -----

  /** What is held and not handed out, oldest first. */
  function Held(s: State): seq<nat> { InHand(s) + s.replay + s.queue }

  function After(s: State, tail: seq<Event>): State
    decreases |tail|
  {
    if tail == [] then s else After(Step(s, tail[0]), tail[1..])
  }

  lemma AfterOne(s: State, e: Event)
    ensures After(s, [e]) == Step(s, e)
  {
    hide Step;
    assert After(Step(s, e), []) == Step(s, e);
  }

  lemma {:induction false} AfterBoth(s: State, tail: seq<Event>, more: seq<Event>)
    ensures After(s, tail + more) == After(After(s, tail), more)
    decreases |tail|
  {
    hide Step;
    if tail == [] {
      assert tail + more == more;
    } else {
      AfterBoth(Step(s, tail[0]), tail[1..], more);
      assert (tail + more)[1..] == tail[1..] + more;
    }
  }

  lemma {:induction false} ReachedAfter(max: nat, run: seq<Event>, tail: seq<Event>)
    ensures Reached(max, run + tail) == After(Reached(max, run), tail)
    decreases |tail|
  {
    hide Step;
    if tail == [] {
      assert run + tail == run;
    } else {
      assert (run + [tail[0]])[..|run|] == run;
      ReachedAfter(max, run + [tail[0]], tail[1..]);
      assert run + [tail[0]] + tail[1..] == run + tail;
    }
  }

  /** The receiver receives, and nothing else happens. */
  predicate Receiving(e: Event) { e.EBeginReceive? || e.EWin? || e == EEndReceive(false) }

  ghost predicate AllReceiving(tail: seq<Event>) { forall e | e in tail :: Receiving(e) }

  lemma HandsOutWon(s: State)
    requires s.receiver.Won?
    ensures var t := Step(s, EEndReceive(false));
      && t.receiver.Idle? && t.failed == s.failed && t.delivered == s.delivered + [s.receiver.item]
      && Held(s) == [s.receiver.item] + Held(t)
  {}

  lemma WinsFirst(s: State)
    requires s.receiver.Waiting? && s.replay == [] && s.queue != []
    ensures var t := Step(s, EWin);
      t.receiver == Won(s.queue[0]) && t.failed == s.failed && t.delivered == s.delivered && Held(t) == Held(s)
  {
    assert s.queue == [s.queue[0]] + s.queue[1..];
  }

  lemma BeginsFirst(s: State)
    requires s.receiver.Idle? && !s.failed
    ensures var t := Step(s, EBeginReceive);
      if s.replay != [] then
        t.receiver.Idle? && !t.failed && t.delivered == s.delivered + [s.replay[0]] && Held(s) == [s.replay[0]] + Held(t)
      else t == s.(receiver := Waiting)
  {}

  /** The oldest held item is handed out after at most three events. */
  lemma FirstIsReceived(s: State) returns (tail: seq<Event>)
    requires Bounds(s) && !s.failed && Held(s) != []
    ensures 0 < |tail| <= 3 && AllReceiving(tail)
    ensures var t := After(s, tail); !t.failed && t.delivered == s.delivered + [Held(s)[0]] && Held(t) == Held(s)[1..]
  {
    var end, win, begin := EEndReceive(false), EWin, EBeginReceive;
    if s.receiver.Won? {
      HandsOutWon(s);
      hide Step;
      AfterOne(s, end);
      tail := [end];
    } else if s.receiver.Waiting? {
      WinsFirst(s);
      var t := Step(s, win);
      HandsOutWon(t);
      hide Step;
      AfterOne(s, win);
      AfterOne(t, end);
      AfterBoth(s, [win], [end]);
      tail := [win] + [end];
    } else if s.replay != [] {
      BeginsFirst(s);
      hide Step;
      AfterOne(s, begin);
      tail := [begin];
    } else {
      BeginsFirst(s);
      var t := Step(s, begin);
      assert Held(t) == Held(s);
      WinsFirst(t);
      HandsOutWon(Step(t, win));
      hide Step;
      AfterOne(s, begin);
      AfterOne(t, win);
      AfterOne(Step(t, win), end);
      AfterBoth(t, [win], [end]);
      AfterBoth(s, [begin], [win] + [end]);
      tail := [begin] + ([win] + [end]);
    }
  }

  lemma {:induction false} TailBounds(s: State, tail: seq<Event>)
    requires Bounds(s)
    ensures Bounds(After(s, tail))
    decreases |tail|
  {
    hide Bounds, Step;
    if tail != [] {
      BoundsKeep(s, tail[0]);
      TailBounds(Step(s, tail[0]), tail[1..]);
    }
  }

  lemma AllReceived(s: State) returns (tail: seq<Event>)
    requires Bounds(s) && !s.failed
    ensures |tail| <= 3 * |Held(s)| && AllReceiving(tail)
    ensures After(s, tail).delivered == s.delivered + Held(s) && Held(After(s, tail)) == []
    decreases |Held(s)|
  {
    tail := [];
    NothingAfter(s);
    if Held(s) == [] { return; }
    hide Bounds, Step, Held, After, AllReceiving;
    var first := FirstIsReceived(s);
    var t := After(s, first);
    TailBounds(s, first);
    var rest := AllReceived(t);
    AfterBoth(s, first, rest);
    OneThenRest(s.delivered, Held(s));
    BothReceiving(first, rest);
    tail := first + rest;
  }

  lemma NothingAfter(s: State)
    ensures After(s, []) == s && AllReceiving([]) && (Held(s) == [] ==> s.delivered + Held(s) == s.delivered)
  {}

  lemma OneThenRest(a: seq<nat>, b: seq<nat>)
    requires b != []
    ensures a + [b[0]] + b[1..] == a + b
  {}

  lemma BothReceiving(a: seq<Event>, b: seq<Event>)
    requires AllReceiving(a) && AllReceiving(b)
    ensures AllReceiving(a + b)
  {}

  /**
   Nothing accepted is stuck: in every reachable state of a transport that has not failed, receives alone hand out
   everything that is held, the won item first, then the replay slot, then the queue.
   */
  lemma HeldIsReceived(max: nat, run: seq<Event>)
    requires !Reached(max, run).failed
    ensures exists tail :: (AllReceiving(tail) && |tail| <= 3 * |Held(Reached(max, run))|
                            && Reached(max, run + tail).delivered == Reached(max, run).delivered + Held(Reached(max, run)))
  {
    hide Reached, Step, AllReceiving, Held;
    ReachedKeeps(max, run);
    var tail := AllReceived(Reached(max, run));
    ReachedAfter(max, run, tail);
  }
}
