/**
 A WebRTC receive queue with its cancellation replay slot (`_put_transport_item`, `_recv_transport_queue`,
 `_restore_cancelled_receive` and the drains), for one queue and its one receiver.

 Items are named by the order in which they were accepted: 0, 1, 2, ...
 */
module Transport {
  import opened Wrappers

  /** The receive coroutine: not in a receive, waiting for an item, or holding one it has won. */
  datatype Receiver = Idle | Waiting | Won(item: nat)

  datatype State = State(
    max: nat,                // queue.maxsize; zero means unbounded
    queue: seq<nat>,
    replay: seq<nat>,
    receiver: Receiver,
    failed: bool,
    closed: bool,
    accepted: nat,           // history: how many items were ever enqueued
    delivered: seq<nat>,     // history: items handed out, by receives and drains, in order
    lost: bool,              // history: a won item was given up
    overtaken: bool)         // history: a drain took items while the receiver held an older one

  function Init(max: nat): State { State(max, [], [], Idle, false, false, 0, [], false, false) }

  predicate Full(s: State) { s.max > 0 && |s.replay| + |s.queue| >= s.max }

  /** `_fail_transport`: only the first fault of an open transport counts. */
  function Fail(s: State): State { if s.closed then s else s.(failed := true) }

  function Put(s: State): State {
    if Full(s) then Fail(s) else s.(queue := s.queue + [s.accepted], accepted := s.accepted + 1)
  }

  function BeginReceive(s: State): State {
    if !s.receiver.Idle? || s.failed then s
    else if s.replay != [] then s.(delivered := s.delivered + [s.replay[0]], replay := s.replay[1..])
    else s.(receiver := Waiting)
  }

  /** The inner `queue.get()` task completes, possibly long before the receive resumes. */
  function Win(s: State): State {
    if !s.receiver.Waiting? || s.queue == [] then s
    else s.(receiver := Won(s.queue[0]), queue := s.queue[1..])
  }

  /** The receive resumes. With the failure event seen it raises, and a won item is given up. */
  function EndReceive(s: State, failureSeen: bool): State {
    if s.failed && failureSeen then s.(receiver := Idle, lost := s.lost || s.receiver.Won?)
    else if s.receiver.Won? then s.(receiver := Idle, delivered := s.delivered + [s.receiver.item])
    else s
  }

  function TimeOut(s: State): State { if s.receiver.Waiting? then s.(receiver := Idle) else s }

  /** The receive is cancelled: a won item goes back to the front, or the transport fails. */
  function Cancel(s: State): State {
    match s.receiver
    case Idle => s
    case Waiting => s.(receiver := Idle)
    case Won(item) =>
      var s1 := s.(receiver := Idle);
      if s.replay != [] || Full(s) then Fail(s1).(lost := true) else s1.(replay := [item] + s.replay)
  }

  function Drain(s: State): State {
    if s.failed then s
    else
      s.(delivered := s.delivered + s.replay + s.queue, replay := [], queue := [],
         overtaken := s.overtaken || (s.receiver.Won? && s.replay + s.queue != []))
  }

  datatype Event = EPut | EBeginReceive | EWin | EEndReceive(failureSeen: bool) | ETimeOut | ECancel | EDrain | EFail | EClose

  function Step(s: State, e: Event): State {
    match e
    case EPut => Put(s)
    case EBeginReceive => BeginReceive(s)
    case EWin => Win(s)
    case EEndReceive(failureSeen) => EndReceive(s, failureSeen)
    case ETimeOut => TimeOut(s)
    case ECancel => Cancel(s)
    case EDrain => Drain(s)
    case EFail => Fail(s)
    case EClose => s.(closed := true)
  }

  function Reached(max: nat, run: seq<Event>): State {
    if run == [] then Init(max) else Step(Reached(max, run[..|run| - 1]), run[|run| - 1])
  }

  // ----- the invariant -----

  function InHand(s: State): seq<nat> { if s.receiver.Won? then [s.receiver.item] else [] }

  /** Everything delivered, then the item in flight, the replay slot and the queue. */
  function Pipeline(s: State): seq<nat> { s.delivered + InHand(s) + s.replay + s.queue }

  ghost predicate InOrder(xs: seq<nat>, n: nat) {
    |xs| == n && forall i :: 0 <= i < n ==> xs[i] == i
  }

  ghost predicate Bounds(s: State) {
    && |s.replay| <= 1 && (s.max > 0 ==> |s.replay| + |s.queue| <= s.max)
    && (s.replay != [] ==> s.receiver.Idle?)
  }

  /** The accepted items 0..n, each at most once; all of them when `exact`. */
  ghost predicate Once(xs: seq<nat>, n: nat, exact: bool) {
    forall x: nat :: multiset(xs)[x] <= (if x < n then 1 else 0) && (exact && x < n ==> multiset(xs)[x] == 1)
  }

  ghost predicate Conserved(s: State) {
    Once(Pipeline(s), s.accepted, !s.lost) && (s.lost ==> s.failed || s.closed)
  }

  /** The order is right until a drain overtakes the receiver, and wrong for ever after. */
  ghost predicate Order(s: State) {
    !s.lost ==>
      if s.overtaken then exists i :: 0 <= i < |s.delivered| && s.delivered[i] != i
      else InOrder(Pipeline(s), s.accepted)
  }

  ghost predicate Inv(s: State) { Bounds(s) && Conserved(s) && Order(s) }

  lemma InitInv(max: nat) ensures Inv(Init(max)) {}

  lemma BoundsKeep(s: State, e: Event)
    requires Bounds(s)
    ensures Bounds(Step(s, e))
  {}

  lemma OnceAppend(xs: seq<nat>, n: nat, exact: bool)
    requires Once(xs, n, exact)
    ensures Once(xs + [n], n + 1, exact)
  {
    forall x: nat ensures multiset(xs + [n])[x] == multiset(xs)[x] + if x == n then 1 else 0 {}
  }

  lemma OnceRemove(a: seq<nat>, x: nat, b: seq<nat>, n: nat, exact: bool)
    requires Once(a + [x] + b, n, exact)
    ensures Once(a + b, n, false)
  {
    assert multiset(a + [x] + b) == multiset(a + b) + multiset{x};
    forall y: nat ensures multiset(a + b)[y] <= multiset(a + [x] + b)[y] {}
  }

  lemma OnceSwap(a: seq<nat>, b: seq<nat>, c: seq<nat>, n: nat, exact: bool)
    requires Once(a + b + c, n, exact)
    ensures Once(a + c + b, n, exact)
  {
    assert multiset(a + b + c) == multiset(a + c + b);
  }

  lemma PutKeeps(s: State)
    requires Inv(s)
    ensures Conserved(Put(s)) && Order(Put(s))
  {
    hide Once;
    if Full(s) { return; }
    OnceAppend(Pipeline(s), s.accepted, !s.lost);
    assert Pipeline(Put(s)) == Pipeline(s) + [s.accepted];
  }

  lemma DrainConserves(s: State)
    requires Conserved(s)
    ensures Conserved(Drain(s))
  {
    hide Once;
    if s.failed { return; }
    var drained := s.replay + s.queue;
    assert Pipeline(s) == s.delivered + InHand(s) + drained;
    OnceSwap(s.delivered, InHand(s), drained, s.accepted, !s.lost);
    assert Pipeline(Drain(s)) == s.delivered + drained + InHand(s);
  }

  lemma DrainOrders(s: State)
    requires Order(s)
    ensures Order(Drain(s))
  {
    if s.failed || s.lost { return; }
    var t := Drain(s);
    if s.overtaken {
      var i :| 0 <= i < |s.delivered| && s.delivered[i] != i;
      assert t.delivered[i] != i;
    } else if s.receiver.Won? && s.replay + s.queue != [] {
      var k := |s.delivered|;
      assert Pipeline(s) == s.delivered + [s.receiver.item] + (s.replay + s.queue);
      assert Pipeline(s)[k + 1] == (s.replay + s.queue)[0] == t.delivered[k];
    } else {
      assert Pipeline(t) == Pipeline(s);
    }
  }

  /** A step other than a put or a drain keeps the pipeline, or gives up the item in flight. */
  predicate GaveUp(s: State, t: State) {
    && s.receiver.Won? && t.receiver.Idle? && t.lost && (t.failed || t.closed)
    && t.delivered == s.delivered && t.replay == s.replay && t.queue == s.queue && t.accepted == s.accepted
  }

  predicate Kept(s: State, t: State) {
    && Pipeline(t) == Pipeline(s) && t.accepted == s.accepted && t.lost == s.lost && t.overtaken == s.overtaken
    && s.delivered <= t.delivered && (s.failed ==> t.failed) && (s.closed ==> t.closed)
  }

  lemma BeginReceiveKeeps(s: State)
    requires Bounds(s)
    ensures Kept(s, BeginReceive(s))
  {
    if !s.receiver.Idle? || s.failed || s.replay == [] { return; }
    assert s.replay == [s.replay[0]] + s.replay[1..];
    assert Pipeline(BeginReceive(s)) == Pipeline(s);
  }

  lemma WinKeeps(s: State)
    requires Bounds(s)
    ensures Kept(s, Win(s))
  {
    if !s.receiver.Waiting? || s.queue == [] { return; }
    assert s.queue == [s.queue[0]] + s.queue[1..];
    assert Pipeline(Win(s)) == Pipeline(s);
  }

  lemma EndReceiveShape(s: State, failureSeen: bool)
    requires Bounds(s)
    ensures GaveUp(s, EndReceive(s, failureSeen)) || Kept(s, EndReceive(s, failureSeen))
  {
    if s.receiver.Won? && !(s.failed && failureSeen) { assert Pipeline(EndReceive(s, failureSeen)) == Pipeline(s); }
  }

  lemma CancelShape(s: State)
    requires Bounds(s)
    ensures GaveUp(s, Cancel(s)) || Kept(s, Cancel(s))
  {
    if s.receiver.Won? && s.replay == [] && !Full(s) { assert Pipeline(Cancel(s)) == Pipeline(s); }
  }

  lemma StepShape(s: State, e: Event)
    requires Bounds(s) && !e.EPut? && !e.EDrain?
    ensures GaveUp(s, Step(s, e)) || Kept(s, Step(s, e))
  {
    hide Bounds, GaveUp, Kept, BeginReceive, Win, EndReceive, Cancel;
    match e
    case EBeginReceive => BeginReceiveKeeps(s);
    case EWin => WinKeeps(s);
    case EEndReceive(failureSeen) => EndReceiveShape(s, failureSeen);
    case ECancel => CancelShape(s);
    case ETimeOut => FlagsKept(s);
    case EFail => FlagsKept(s);
    case EClose => FlagsKept(s);
  }

  lemma FlagsKept(s: State)
    ensures Kept(s, TimeOut(s)) && Kept(s, Fail(s)) && Kept(s, s.(closed := true))
  {}

  lemma KeptKeeps(s: State, t: State)
    requires Conserved(s) && Order(s) && Kept(s, t)
    ensures Conserved(t) && Order(t)
  {
    hide Once, Pipeline;
    if !s.lost && s.overtaken {
      var i :| 0 <= i < |s.delivered| && s.delivered[i] != i;
      assert t.delivered[i] != i;
    }
  }

  lemma GaveUpKeeps(s: State, t: State)
    requires Conserved(s) && GaveUp(s, t)
    ensures Conserved(t) && Order(t)
  {
    hide Once;
    var rest := s.replay + s.queue;
    assert Pipeline(s) == s.delivered + [s.receiver.item] + rest;
    assert Pipeline(t) == s.delivered + rest;
    OnceRemove(s.delivered, s.receiver.item, rest, s.accepted, !s.lost);
  }

  lemma StepKeeps(s: State, e: Event)
    requires Inv(s)
    ensures Inv(Step(s, e))
  {
    hide Bounds, Conserved, Order, Pipeline, Kept, GaveUp;
    BoundsKeep(s, e);
    if e.EPut? {
      PutKeeps(s);
    } else if e.EDrain? {
      DrainConserves(s);
      DrainOrders(s);
    } else {
      StepShape(s, e);
      if GaveUp(s, Step(s, e)) { GaveUpKeeps(s, Step(s, e)); } else { KeptKeeps(s, Step(s, e)); }
    }
  }

  lemma StepKeepsMax(s: State, e: Event)
    ensures Step(s, e).max == s.max
  {}

  lemma {:induction false} BoundOfRun(max: nat, run: seq<Event>)
    ensures Reached(max, run).max == max
  {
    hide Step;
    if run != [] {
      BoundOfRun(max, run[..|run| - 1]);
      StepKeepsMax(Reached(max, run[..|run| - 1]), run[|run| - 1]);
    }
  }

  lemma {:induction false} ReachedKeeps(max: nat, run: seq<Event>)
    ensures Inv(Reached(max, run))
  {
    hide Inv, Step;
    if run == [] { InitInv(max); } else {
      ReachedKeeps(max, run[..|run| - 1]);
      StepKeeps(Reached(max, run[..|run| - 1]), run[|run| - 1]);
    }
  }

  // ----- what the queue guarantees -----

  /** A drain that takes items while the receiver holds an older one it has won. */
  predicate Overtakes(s: State, e: Event) { e.EDrain? && !s.failed && s.receiver.Won? && s.replay + s.queue != [] }

  /** A won item is given up: the receive sees the failure, or is cancelled with no room to put it back. */
  predicate GivesUp(s: State, e: Event) {
    s.receiver.Won? && ((e == EEndReceive(true) && s.failed) || (e.ECancel? && (s.replay != [] || Full(s))))
  }

  ghost predicate Overtook(max: nat, run: seq<Event>) {
    exists k: nat :: k < |run| && Overtakes(Reached(max, run[..k]), run[k])
  }

  ghost predicate GaveSomethingUp(max: nat, run: seq<Event>) {
    exists k: nat :: k < |run| && GivesUp(Reached(max, run[..k]), run[k])
  }

  lemma FlagsOfStep(s: State, e: Event)
    ensures Step(s, e).overtaken <==> s.overtaken || Overtakes(s, e)
    ensures Step(s, e).lost <==> s.lost || GivesUp(s, e)
  {}

  /** The two history flags are set exactly by those steps. */
  lemma {:induction false} FlagsAreSteps(max: nat, run: seq<Event>)
    ensures Reached(max, run).overtaken <==> Overtook(max, run)
    ensures Reached(max, run).lost <==> GaveSomethingUp(max, run)
  {
    hide Step, Overtakes, GivesUp;
    if run == [] { return; }
    var front, n := run[..|run| - 1], |run| - 1;
    FlagsAreSteps(max, front);
    FlagsOfStep(Reached(max, front), run[n]);
    assert forall k: nat :: k <= n ==> front[..k] == run[..k];
    assert forall k: nat :: k < n ==> front[k] == run[k];
    assert Overtakes(Reached(max, front), run[n]) <==> Overtakes(Reached(max, run[..n]), run[n]);
    if Overtook(max, front) {
      var k: nat :| k < n && Overtakes(Reached(max, front[..k]), front[k]);
      assert Overtakes(Reached(max, run[..k]), run[k]);
    }
    if GaveSomethingUp(max, front) {
      var k: nat :| k < n && GivesUp(Reached(max, front[..k]), front[k]);
      assert GivesUp(Reached(max, run[..k]), run[k]);
    }
    OnlyInFront(max, run);
  }

  lemma OnlyInFront(max: nat, run: seq<Event>)
    requires run != []
    ensures Overtook(max, run) ==>
      Overtook(max, run[..|run| - 1]) || Overtakes(Reached(max, run[..|run| - 1]), run[|run| - 1])
    ensures GaveSomethingUp(max, run) ==>
      GaveSomethingUp(max, run[..|run| - 1]) || GivesUp(Reached(max, run[..|run| - 1]), run[|run| - 1])
  {
    hide Step, Overtakes, GivesUp, Reached;
    var front, n := run[..|run| - 1], |run| - 1;
    if Overtook(max, run) {
      var k: nat :| k < |run| && Overtakes(Reached(max, run[..k]), run[k]);
      if k < n { assert front[..k] == run[..k] && Overtakes(Reached(max, front[..k]), front[k]); }
    }
    if GaveSomethingUp(max, run) {
      var k: nat :| k < |run| && GivesUp(Reached(max, run[..k]), run[k]);
      if k < n { assert front[..k] == run[..k] && GivesUp(Reached(max, front[..k]), front[k]); }
    }
  }

  /**
   Unless a step of the run gave an item up, the delivered items followed by the one in flight, the replay
   slot and the queue are the accepted items in order, exactly when no drain of the run overtook a receive.
   */
  lemma FifoIffNotOvertaken(max: nat, run: seq<Event>)
    requires !GaveSomethingUp(max, run)
    ensures var s := Reached(max, run);
      InOrder(Pipeline(s), s.accepted) <==> !Overtook(max, run)
  {
    ReachedKeeps(max, run);
    FlagsAreSteps(max, run);
    var s := Reached(max, run);
    if s.overtaken {
      var i :| 0 <= i < |s.delivered| && s.delivered[i] != i;
      assert Pipeline(s)[i] == s.delivered[i];
    }
  }

  /** No item is ever duplicated, and one is lost only when the transport has failed or closed. */
  lemma EachItemOnce(max: nat, run: seq<Event>, x: nat)
    ensures var s := Reached(max, run);
      && multiset(Pipeline(s))[x] <= (if x < s.accepted then 1 else 0)
      && (!s.failed && !s.closed && x < s.accepted ==> multiset(Pipeline(s))[x] == 1)
  {
    ReachedKeeps(max, run);
  }

  /** The replay slot holds at most one item, and with the queue it never exceeds the queue's bound. */
  lemma ReplayIsBounded(max: nat, run: seq<Event>)
    ensures var s := Reached(max, run);
      |s.replay| <= 1 && (max > 0 ==> |s.replay| + |s.queue| <= max)
  {
    ReachedKeeps(max, run);
    BoundOfRun(max, run);
  }

  /** A drain can overtake: with an item won but not yet returned, it hands out the next one first. */
  lemma DrainOvertakes()
    ensures var s := Reached(25, [EPut, EPut, EBeginReceive, EWin, EDrain, EEndReceive(false)]);
      s.delivered == [1, 0] && s.overtaken && !s.lost
  {
    var run := [EPut, EPut, EBeginReceive, EWin, EDrain, EEndReceive(false)];
    var s2 := Init(25).(queue := [0, 1], accepted := 2);
    assert run[..5][..4] == run[..4] && run[..4][..3] == run[..3] && run[..3][..2] == run[..2] && run[..2][..1] == run[..1];
    assert Reached(25, run[..1]) == Put(Init(25)) by { assert run[..1][..0] == []; }
    assert Reached(25, run[..2]) == s2;
    assert Reached(25, run[..3]) == s2.(receiver := Waiting);
    assert Reached(25, run[..4]) == s2.(receiver := Won(0), queue := [1]);
    assert Reached(25, run[..5]) == s2.(receiver := Won(0), queue := [], delivered := [1], overtaken := true);
  }

  // ----- the peer object -----

  /** One queue of the peer: the same steps over its own fields. */
  class ReceiveQueue {
    const max: nat
    var queue: seq<nat>
    var replay: seq<nat>
    var receiver: Receiver
    var failed: bool
    var closed: bool
    var accepted: nat
    ghost var delivered: seq<nat>
    ghost var lost: bool
    ghost var overtaken: bool

    ghost function View(): State
      reads this
    {
      State(max, queue, replay, receiver, failed, closed, accepted, delivered, lost, overtaken)
    }

    constructor (max: nat)
      ensures View() == Init(max)
    {
      this.max := max;
      queue, replay, receiver, failed, closed, accepted := [], [], Idle, false, false, 0;
      delivered, lost, overtaken := [], false, false;
    }

    method FailTransport()
      modifies `failed
      ensures View() == Step(old(View()), EFail)
    {
      if closed || failed { return; }
      failed := true;
    }

    method PutItem() returns (ok: bool)
      modifies this
      ensures View() == Step(old(View()), EPut) && ok == !Full(old(View()))
    {
      if max > 0 && |replay| + |queue| >= max {
        FailTransport();
        return false;
      }
      queue := queue + [accepted];
      accepted := accepted + 1;
      return true;
    }

    method RestoreCancelledReceive()
      requires receiver.Won?
      modifies this
      ensures View() == Step(old(View()), ECancel)
    {
      var item := receiver.item;
      receiver := Idle;
      if replay != [] || (max > 0 && |replay| + |queue| >= max) {
        FailTransport();
        lost := true;
        return;
      }
      replay := [item] + replay;
    }

    /** Empties the replay slot, then the queue one item at a time. */
    method DrainNow() returns (items: seq<nat>)
      requires !failed
      modifies this
      ensures View() == Step(old(View()), EDrain)
      ensures items == old(replay) + old(queue)
    {
      items := replay;
      replay := [];
      while queue != []
        invariant items + queue == old(replay) + old(queue)
        modifies `queue
        decreases |queue|
      {
        items := items + [queue[0]];
        queue := queue[1..];
      }
      overtaken := overtaken || (receiver.Won? && items != []);
      assert items == old(replay) + old(queue);
      assert old(delivered) + items == old(delivered) + old(replay) + old(queue);
      delivered := delivered + items;
    }

    /** The start of a receive: the replay slot first, else it waits. Failing raises. */
    method BeginReceiving() returns (item: Option<nat>)
      requires receiver.Idle?
      modifies this
      ensures View() == Step(old(View()), EBeginReceive)
      ensures item.Some? <==> |View().delivered| > |old(View()).delivered|
      ensures item.Some? ==> View().delivered == old(View()).delivered + [item.value]
    {
      if failed { return None; }
      if replay != [] {
        item := Some(replay[0]);
        delivered := delivered + [replay[0]];
        replay := replay[1..];
        return;
      }
      receiver := Waiting;
      return None;
    }

    /** The end of a receive: the won item, unless the failure event is seen first. */
    method EndReceiving(failureSeen: bool) returns (item: Option<nat>)
      requires receiver.Won?
      modifies this
      ensures View() == Step(old(View()), EEndReceive(failureSeen))
      ensures item == if old(failed) && failureSeen then None else Some(old(receiver).item)
    {
      var won := receiver.item;
      receiver := Idle;
      if failed && failureSeen {
        lost := true;
        return None;
      }
      delivered := delivered + [won];
      return Some(won);
    }
  }
}
