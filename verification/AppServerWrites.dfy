/**
 When a response can be written, told by the events of a run alone: an activation is inside a write from its begin
 to its own commit or failure, is answered by its commit, and is current until its id is used again or the client
 closes. Between writes a current, unanswered activation can always be answered, by its handler or its fallback.
 */
module AppServerWrites {
  import opened Wrappers
  import opened AppServerResponses

  // ----- the events of one activation -----

  predicate Arrives(e: Event) { e.EDeliver? || e.EUndelivered? }

  /** The event is the request that activation `a` is for. */
  predicate Activates(s: State, e: Event, a: Activation) { Arrives(e) && s.next == a }

  predicate Begins(s: State, e: Event, a: Activation) { e == EBeginWrite(a) && MayWrite(s, a) }

  predicate Ends(e: Event, a: Activation) { e == ECommit(a) || e == EFailWrite(a) }

  /** A newer request with its id, or the end of the client. */
  predicate Displaces(e: Event, id: RequestId) { (Arrives(e) && e.id == id) || e.EClose? }

  // ----- in terms of the run -----

  /** The activation's last write has begun and has neither committed nor failed. */
  ghost predicate InsideWrite(run: seq<Event>, a: Activation) {
    exists k: nat :: WritingSince(run, k, a)
  }

  ghost predicate WritingSince(run: seq<Event>, k: nat, a: Activation) {
    k < |run| && Begins(Reached(run[..k]), run[k], a) && QuietSince(run, k, a)
  }

  ghost predicate QuietSince(run: seq<Event>, k: nat, a: Activation) { forall j :: k < j < |run| ==> !Ends(run[j], a) }

  /** A write of the activation committed. */
  ghost predicate Answered(run: seq<Event>, a: Activation) {
    exists k: nat :: k < |run| && run[k] == ECommit(a) && InsideWrite(run[..k], a)
  }

  /** The activation's request arrived, and its id has not been used again since, nor the client closed. */
  ghost predicate Undisplaced(run: seq<Event>, a: Activation) {
    exists k: nat :: CurrentSince(run, k, a)
  }

  ghost predicate CurrentSince(run: seq<Event>, k: nat, a: Activation) {
    k < |run| && Activates(Reached(run[..k]), run[k], a) && FreeSince(run, k, run[k].id)
  }

  ghost predicate FreeSince(run: seq<Event>, k: nat, id: RequestId) { forall j :: k < j < |run| ==> !Displaces(run[j], id) }

  lemma FreeLater(run: seq<Event>, e: Event, k: nat, id: RequestId)
    ensures k < |run| ==> (FreeSince(run + [e], k, id) <==> FreeSince(run, k, id) && !Displaces(e, id))
    ensures FreeSince(run + [e], |run|, id)
  {
    hide Displaces;
    var now := run + [e];
    assert now[|run|] == e && forall j | 0 <= j < |run| :: now[j] == run[j];
    if k < |run| && FreeSince(now, k, id) {
      assert !Displaces(now[|run|], id);
      assert forall j | k < j < |run| :: !Displaces(now[j], id);
    }
  }

  lemma Longer(run: seq<Event>, e: Event)
    ensures Reached(run + [e]) == Step(Reached(run), e) && (run + [e])[..|run|] == run
  {
    hide Step;
    assert (run + [e])[..|run|] == run;
  }

  lemma QuietLater(run: seq<Event>, e: Event, k: nat, a: Activation)
    ensures k < |run| ==> (QuietSince(run + [e], k, a) <==> QuietSince(run, k, a) && !Ends(e, a))
    ensures QuietSince(run + [e], |run|, a)
  {
    hide Ends;
    var now := run + [e];
    assert now[|run|] == e && forall j | 0 <= j < |run| :: now[j] == run[j];
    if k < |run| && QuietSince(now, k, a) {
      assert !Ends(now[|run|], a);
      assert forall j | k < j < |run| :: !Ends(now[j], a);
    }
  }

  lemma WritingLater(run: seq<Event>, e: Event, k: nat, a: Activation)
    ensures k < |run| ==> (WritingSince(run + [e], k, a) <==> WritingSince(run, k, a) && !Ends(e, a))
    ensures WritingSince(run + [e], |run|, a) <==> Begins(Reached(run), e, a)
  {
    hide Reached, QuietSince, Ends, Begins;
    assert (run + [e])[..|run|] == run;
    if k < |run| { assert (run + [e])[..k] == run[..k]; }
    QuietLater(run, e, k, a);
  }

  lemma InsideLater(run: seq<Event>, e: Event, a: Activation)
    ensures InsideWrite(run + [e], a) <==> Begins(Reached(run), e, a) || (InsideWrite(run, a) && !Ends(e, a))
  {
    hide Reached, Begins, Ends, WritingSince;
    WritingLater(run, e, |run|, a);
    if InsideWrite(run + [e], a) {
      var k: nat :| WritingSince(run + [e], k, a);
      WritingInside(run + [e], k, a);
      WritingLater(run, e, k, a);
    }
    if InsideWrite(run, a) {
      var k: nat :| WritingSince(run, k, a);
      WritingInside(run, k, a);
      WritingLater(run, e, k, a);
    }
  }

  lemma WritingInside(run: seq<Event>, k: nat, a: Activation)
    requires WritingSince(run, k, a)
    ensures k < |run|
  {}

  lemma AnsweredLater(run: seq<Event>, e: Event, a: Activation)
    ensures Answered(run + [e], a) <==> (e == ECommit(a) && InsideWrite(run, a)) || Answered(run, a)
  {
    hide Reached, InsideWrite;
    var now := run + [e];
    assert now[..|run|] == run && now[|run|] == e;
    assert forall k: nat | k < |run| :: now[..k] == run[..k] && now[k] == run[k];
    if Answered(run, a) {
      var k: nat :| k < |run| && run[k] == ECommit(a) && InsideWrite(run[..k], a);
      assert now[k] == ECommit(a) && InsideWrite(now[..k], a);
    }
  }

  lemma CurrentLater(run: seq<Event>, e: Event, k: nat, a: Activation)
    requires k < |run| && Arrives(run[k])
    ensures CurrentSince(run + [e], k, a) <==> CurrentSince(run, k, a) && !Displaces(e, run[k].id)
  {
    hide Reached, FreeSince, Displaces;
    assert (run + [e])[..k] == run[..k] && (run + [e])[k] == run[k];
    if Arrives(run[k]) { FreeLater(run, e, k, run[k].id); }
  }

  lemma CurrentNow(run: seq<Event>, e: Event, a: Activation)
    ensures CurrentSince(run + [e], |run|, a) <==> Activates(Reached(run), e, a)
  {
    hide Reached, FreeSince, Displaces;
    assert (run + [e])[..|run|] == run && (run + [e])[|run|] == e;
    if Arrives(e) { FreeLater(run, e, |run|, e.id); }
  }

  lemma UndisplacedLater(run: seq<Event>, e: Event, a: Activation)
    requires Named(run, a) && (Undisplaced(run, a) ==> a in Reached(run).idOf)
    ensures Undisplaced(run + [e], a) <==>
      Activates(Reached(run), e, a) || (Undisplaced(run, a) && !Displaces(e, Reached(run).idOf[a]))
  {
    var now := run + [e];
    SinceIsNamed(run, a);
    hide Reached, CurrentSince, Displaces, Activates, Named;
    CurrentNow(run, e, a);
    if Undisplaced(now, a) {
      var k: nat :| CurrentSince(now, k, a);
      SinceIsInside(now, k, a);
      if k < |run| {
        assert now[k] == run[k];
        CurrentLater(run, e, k, a);
      }
    }
    if Undisplaced(run, a) && !Displaces(e, Reached(run).idOf[a]) {
      var k: nat :| CurrentSince(run, k, a);
      SinceIsInside(run, k, a);
      CurrentLater(run, e, k, a);
    }
  }

  lemma SinceIsInside(run: seq<Event>, k: nat, a: Activation)
    requires CurrentSince(run, k, a)
    ensures k < |run| && Arrives(run[k])
  {}

  lemma SinceIsNamed(run: seq<Event>, a: Activation)
    requires Named(run, a)
    ensures forall k: nat | CurrentSince(run, k, a) :: a in Reached(run).idOf && run[k].id == Reached(run).idOf[a]
  {}

  /** The id an activation has is that of its request. */
  ghost predicate Named(run: seq<Event>, a: Activation) {
    forall k: nat | k < |run| && Activates(Reached(run[..k]), run[k], a) :: a in Reached(run).idOf && run[k].id == Reached(run).idOf[a]
  }

  // ----- the state tells the same -----

  lemma WritingStep(s: State, e: Event, a: Activation)
    requires Inv(s)
    ensures a in Step(s, e).writing <==> Begins(s, e, a) || (a in s.writing && !Ends(e, a))
    ensures a in Step(s, e).written <==> (e == ECommit(a) && a in s.writing) || a in s.written
  {
    hide Retire, Without, Retired, Timers;
    if e.ECommit? { CommitSets(s, e.a); return; }
  }

  lemma CommitSets(s: State, a: Activation)
    requires Activations(s)
    ensures Commit(s, a).writing == s.writing - {a}
    ensures Commit(s, a).written == if a in s.writing then s.written + {a} else s.written
  {
    hide Retire;
    if a in s.writing { CommitShape(s, a); return; }
  }

  /** An activation is inside a write exactly from its begin to its own commit or failure. */
  lemma {:induction false} InsideWriteIff(run: seq<Event>, a: Activation)
    ensures a in Reached(run).writing <==> InsideWrite(run, a)
    ensures a in Reached(run).written <==> Answered(run, a)
  {
    hide Step, Inv, InsideWrite, Answered, Begins, Ends;
    if run == [] { NothingHappened(a); return; }
    var front, e := run[..|run| - 1], run[|run| - 1];
    assert front + [e] == run;
    InsideWriteIff(front, a);
    ReachedKeeps(front);
    WritingStep(Reached(front), e, a);
    InsideLater(front, e, a);
    AnsweredLater(front, e, a);
  }

  lemma NothingHappened(a: Activation)
    ensures !InsideWrite([], a) && !Answered([], a) && !Undisplaced([], a)
  {}

  // ----- current activations -----

  predicate Current(s: State, a: Activation) { a in s.idOf && s.idOf[a] in s.states && s.states[s.idOf[a]] == a }

  lemma CurrentStep(s: State, e: Event, a: Activation)
    requires Inv(s)
    ensures Current(Step(s, e), a) <==>
      Activates(s, e, a) || (Current(s, a) && !Displaces(e, s.idOf[a]) && !(e == ECommit(a) && a in s.writing))
    ensures forall b | b in s.idOf :: b in Step(s, e).idOf && Step(s, e).idOf[b] == s.idOf[b]
    ensures Activates(s, e, a) ==> a in Step(s, e).idOf && Step(s, e).idOf[a] == e.id
  {
    hide Retire, Without, Retired, Timers;
    if e.ECommit? {
      if e.a in s.writing { CommitShape(s, e.a); } else { CommitsNothing(s, e.a); }
      return;
    }
    if e.EClose? { return; }
  }

  lemma CommitsNothing(s: State, a: Activation)
    requires a !in s.writing
    ensures Commit(s, a) == s
  {}

  lemma NamedLater(run: seq<Event>, e: Event, a: Activation)
    requires Named(run, a)
    ensures Named(run + [e], a)
  {
    hide Step;
    var now := run + [e];
    Longer(run, e);
    ReachedKeeps(run);
    hide Reached, Inv;
    CurrentStep(Reached(run), e, a);
    forall k: nat | k < |now| && Activates(Reached(now[..k]), now[k], a)
      ensures a in Reached(now).idOf && now[k].id == Reached(now).idOf[a]
    {
      if k < |run| { assert now[..k] == run[..k] && now[k] == run[k]; }
    }
  }

  lemma {:induction false} CurrentIff(run: seq<Event>, a: Activation)
    ensures Named(run, a)
    ensures Current(Reached(run), a) <==> Undisplaced(run, a) && !Answered(run, a)
    ensures Undisplaced(run, a) ==> a in Reached(run).idOf
  {
    if run == [] { NothingHappened(a); return; }
    var front, e := run[..|run| - 1], run[|run| - 1];
    assert front + [e] == run;
    CurrentIff(front, a);
    ReachedKeeps(front);
    NextIsNew(Reached(front), a);
    InsideWriteIff(front, a);
    InsideWriteIff(run, a);
    Longer(front, e);
    NamedLater(front, e, a);
    hide Step, Inv, InsideWrite, Answered, Undisplaced, Activates, Displaces, Current, Reached;
    CurrentStep(Reached(front), e, a);
    UndisplacedLater(front, e, a);
    AnsweredLater(front, e, a);
  }

  lemma NextIsNew(s: State, a: Activation)
    requires Inv(s)
    ensures a < s.next <==> a in s.idOf
    ensures a in s.written || a in s.writing ==> a < s.next
  {}

  /**
   A response to a request can be written exactly when the request's id has not been used again nor the client
   closed, no write of it has committed, and none is under way; and a write that then begins and completes commits,
   once. A write that failed, or was cancelled, therefore leaves the way open for the fallback.
   */
  lemma CanBeAnsweredIff(run: seq<Event>, a: Activation)
    ensures MayWrite(Reached(run), a) <==> Undisplaced(run, a) && !Answered(run, a) && !InsideWrite(run, a)
    ensures MayWrite(Reached(run), a) ==>
      var t := Reached(run + [EBeginWrite(a)] + [ECommit(a)]);
      a in t.written && t.commits[a] == 1 && Reached(run).commits[a] == 0
  {
    hide Step, Inv, InsideWrite, Answered, Undisplaced;
    CurrentIff(run, a);
    InsideWriteIff(run, a);
    Longer(run, EBeginWrite(a));
    Longer(run + [EBeginWrite(a)], ECommit(a));
    ReachedKeeps(run);
    ReachedKeeps(run + [EBeginWrite(a)]);
    ReachedKeeps(run + [EBeginWrite(a)] + [ECommit(a)]);
    hide Reached;
    WritingStep(Reached(run), EBeginWrite(a), a);
    WritingStep(Reached(run + [EBeginWrite(a)]), ECommit(a), a);
    CommittedOnce(Reached(run), a);
    CommittedOnce(Reached(run + [EBeginWrite(a)] + [ECommit(a)]), a);
  }

  lemma CommittedOnce(s: State, a: Activation)
    requires Inv(s)
    ensures s.commits[a] == if a in s.written then 1 else 0
  {}

  // ----- the timers -----

  /** The timer of the id is this activation's own. */
  predicate Owns(s: State, a: Activation) { a in s.idOf && s.idOf[a] in s.timers && s.timers[s.idOf[a]] == a }

  lemma CommitTimers(s: State, a: Activation)
    ensures Commit(s, a).fired == s.fired && Commit(s, a).delivered == s.delivered
    ensures Commit(s, a).sleeping == if a in s.writing && Owns(s, a) then s.sleeping - {a} else s.sleeping
  {
    hide Retire;
    if a in s.writing && a in s.idOf { CommitShape(s, a); }
  }

  lemma TimerIsItsOwn(s: State, a: Activation)
    requires Inv(s)
    ensures a in s.timers.Values <==> Owns(s, a)
  {
    if a in s.timers.Values {
      var id :| id in s.timers && s.timers[id] == a;
    }
  }

  /**
   The fallback timer starts as the request reaches a subscriber. It sleeps until it fires, or its own activation
   is answered or the client closes while the timer is still the one of its id.
   */
  lemma TimersMove(s: State, e: Event, a: Activation)
    requires Inv(s)
    ensures a in Step(s, e).delivered <==> a in s.delivered || (e.EDeliver? && s.next == a)
    ensures a in Step(s, e).fired <==> a in s.fired || (e == EFire(a) && a in s.sleeping)
    ensures a in Step(s, e).sleeping <==>
      (e.EDeliver? && s.next == a)
      || (a in s.sleeping && e != EFire(a) && !(Owns(s, a) && ((e == ECommit(a) && a in s.writing) || e.EClose?)))
  {
    TimerIsItsOwn(s, a);
    hide Inv, Retire, Without, Commit;
    if e.ECommit? { CommitTimers(s, e.a); }
  }
}
