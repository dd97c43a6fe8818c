/**
 Response commitment for App Server requests (`_respond`, `_handle_server_request` and the fallback
 timer of the JSON-RPC client): which response to a tool request is the one that counts, when the
 handler, its timeout, cancellation and failed writes race, and when request ids are reused.

 An activation is one `_ServerResponseState`. A coroutine inside a write holds its activation's lock.
 */
module AppServerResponses {
  import opened Wrappers

  const MAX_RETIRED := 1024

  type RequestId = string
  type Activation = nat

  datatype State = State(
    states: map<RequestId, Activation>,       // `_server_response_states`
    timers: map<RequestId, Activation>,       // `_server_request_timers`; a timer is named by its activation
    retired: seq<RequestId>,                  // `_retired_server_response_ids`, oldest first
    written: set<Activation>,
    writing: set<Activation>,                 // activations whose lock is held across a write
    sleeping: set<Activation>,                // timer tasks that have not fired
    idOf: map<Activation, RequestId>,
    next: Activation,
    closed: bool,
    commits: multiset<Activation>,            // history: writes that completed
    delivered: set<Activation>,               // history: requests that reached a subscriber
    fired: set<Activation>,                   // history: timers that fired
    total: nat,                               // history: how many ids were ever retired
    retiredAt: map<RequestId, nat>)           // history: which retirement an id's latest one was

  function Init(): State {
    State(map[], map[], [], {}, {}, {}, map[], 0, false, multiset{}, {}, {}, 0, map[])
  }

  function Without(ids: seq<RequestId>, id: RequestId): seq<RequestId> {
    if ids == [] then [] else if ids[0] == id then Without(ids[1..], id) else [ids[0]] + Without(ids[1..], id)
  }

  /** A tool request arrives. A reused id orphans the activation it had. */
  function Arrive(s: State, id: RequestId): State {
    s.(retired := Without(s.retired, id), retiredAt := s.retiredAt - {id},
       states := s.states[id := s.next], idOf := s.idOf[s.next := id], next := s.next + 1)
  }

  /** The request was broadcast to a subscriber, so its fallback timer starts. */
  function Deliver(s: State, id: RequestId): State {
    var s1 := Arrive(s, id);
    s1.(timers := s1.timers[id := s.next], sleeping := s1.sleeping + {s.next}, delivered := s1.delivered + {s.next})
  }

  /** Any other request: answered at once, without an activation of its own. */
  function ArriveOther(s: State, id: RequestId): State {
    s.(retired := Without(s.retired, id), retiredAt := s.retiredAt - {id})
  }

  /** What a response call finds before it waits for a lock. */
  datatype Route = Tracked(activation: Activation) | Suppressed | Untracked

  function RouteOf(s: State, id: RequestId): Route {
    if id in s.states then Tracked(s.states[id]) else if id in s.retired then Suppressed else Untracked
  }

  /** The lock is held and the write may start: nothing is committed, and the id is still this activation's. */
  predicate MayWrite(s: State, a: Activation) {
    a in s.idOf && a !in s.writing && a !in s.written && s.idOf[a] in s.states && s.states[s.idOf[a]] == a
  }

  function BeginWrite(s: State, a: Activation): State {
    if MayWrite(s, a) then s.(writing := s.writing + {a}) else s
  }

  function Retire(s: State, id: RequestId): State {
    var ids := Without(s.retired, id) + [id];
    s.(retired := if |ids| > MAX_RETIRED then ids[1..] else ids, total := s.total + 1, retiredAt := s.retiredAt[id := s.total])
  }

  function CancelTimer(s: State, a: Activation): State
    requires a in s.idOf
  {
    var id := s.idOf[a];
    if id in s.timers && s.timers[id] == a then s.(timers := s.timers - {id}, sleeping := s.sleeping - {a}) else s
  }

  /** The write completed: the commit boundary. */
  function Commit(s: State, a: Activation): State {
    if a !in s.writing || a !in s.idOf then s
    else
      var id := s.idOf[a];
      var s1 := s.(writing := s.writing - {a}, written := s.written + {a}, commits := s.commits + multiset{a});
      var s2 := if id in s1.states && s1.states[id] == a then Retire(s1.(states := s1.states - {id}), id) else s1;
      CancelTimer(s2, a)
  }

  /** The write raised or was cancelled: the activation stays open. */
  function FailWrite(s: State, a: Activation): State { s.(writing := s.writing - {a}) }

  function Fire(s: State, a: Activation): State {
    if a in s.sleeping then s.(sleeping := s.sleeping - {a}, fired := s.fired + {a}) else s
  }

  /** The timer task ends, whatever its response attempt did. */
  function TimerEnds(s: State, a: Activation): State {
    if a !in s.fired || a !in s.idOf then s
    else
      var id := s.idOf[a];
      if id in s.timers && s.timers[id] == a then s.(timers := s.timers - {id}) else s
  }

  function Close(s: State): State {
    s.(closed := true, sleeping := s.sleeping - s.timers.Values, timers := map[], states := map[], retired := [],
       retiredAt := map[])
  }

  datatype Event =
    | EDeliver(id: RequestId)
    | EUndelivered(id: RequestId)
    | EOther(id: RequestId)
    | EBeginWrite(a: Activation)
    | ECommit(a: Activation)
    | EFailWrite(a: Activation)
    | EFire(a: Activation)
    | ETimerEnds(a: Activation)
    | EClose

  function Step(s: State, e: Event): State {
    match e
    case EDeliver(id) => Deliver(s, id)
    case EUndelivered(id) => Arrive(s, id)
    case EOther(id) => ArriveOther(s, id)
    case EBeginWrite(a) => BeginWrite(s, a)
    case ECommit(a) => Commit(s, a)
    case EFailWrite(a) => FailWrite(s, a)
    case EFire(a) => Fire(s, a)
    case ETimerEnds(a) => TimerEnds(s, a)
    case EClose => Close(s)
  }

  function Reached(run: seq<Event>): State {
    if run == [] then Init() else Step(Reached(run[..|run| - 1]), run[|run| - 1])
  }

  // ----- the invariant -----

  ghost predicate Activations(s: State) {
    && (forall a: Activation :: a in s.idOf <==> a < s.next)
    && (forall id | id in s.states :: s.states[id] in s.idOf && s.idOf[s.states[id]] == id && s.states[id] !in s.written)
    && (forall a | a in s.writing :: a in s.idOf && a !in s.written)
    && (forall a: Activation :: s.commits[a] == if a in s.written then 1 else 0)
    && (forall a | a in s.written :: a in s.idOf)
  }

  /** A delivered request keeps its sleeping timer until it is committed, fires, or the client closes. */
  ghost predicate Timers(s: State) {
    && (forall id | id in s.timers :: s.timers[id] in s.idOf && s.idOf[s.timers[id]] == id)
    && (forall a | a in s.sleeping + s.delivered + s.fired :: a in s.idOf)
    && s.fired !! s.sleeping
    && (!s.closed ==> forall a | a in s.delivered && a !in s.written && a !in s.fired :: a in s.sleeping)
    && (forall id | id in s.timers && s.timers[id] in s.sleeping :: s.timers[id] !in s.written)
    && (!s.closed ==> forall id | id in s.states && s.states[id] in s.sleeping :: id in s.timers && s.timers[id] == s.states[id])
  }

  /** The retired ids are distinct, bounded and in the order they were retired. */
  ghost predicate Ordered(ids: seq<RequestId>, at: map<RequestId, nat>, total: nat) {
    && |ids| <= MAX_RETIRED
    && (forall id | id in ids :: id in at)
    && (forall id | id in at :: at[id] < total)
    && (forall i, j :: 0 <= i < j < |ids| ==> at[ids[i]] < at[ids[j]])
    && (forall i :: 0 <= i < |ids| ==> total - at[ids[i]] >= |ids| - i)
  }

  /** An id that was retired and not reused leaves the list only after 1,024 later retirements. */
  ghost predicate Evicted(ids: seq<RequestId>, at: map<RequestId, nat>, total: nat) {
    forall id | id in at && id !in ids :: total - at[id] > MAX_RETIRED
  }

  ghost predicate Retired(s: State) {
    && Ordered(s.retired, s.retiredAt, s.total) && Evicted(s.retired, s.retiredAt, s.total)
    && s.retiredAt.Keys !! s.states.Keys
  }

  ghost predicate Inv(s: State) { Activations(s) && Timers(s) && Retired(s) }

  lemma InitInv() ensures Inv(Init()) {}

  lemma {:induction false} WithoutAt(ids: seq<RequestId>, id: RequestId) returns (k: nat)
    requires forall i, j :: 0 <= i < j < |ids| ==> ids[i] != ids[j]
    ensures id in ids ==> k < |ids| && ids[k] == id && Without(ids, id) == ids[..k] + ids[k + 1..]
    ensures id !in ids ==> Without(ids, id) == ids
  {
    k := 0;
    if ids == [] { return; }
    var rest := WithoutAt(ids[1..], id);
    if ids[0] == id {
      assert id !in ids[1..];
      assert ids[..0] + ids[1..] == ids[1..];
    } else {
      k := rest + 1;
      if id in ids { assert ids[..k] + ids[k + 1..] == [ids[0]] + (ids[1..][..rest] + ids[1..][rest + 1..]); }
    }
  }

  /** Removing one position keeps the list ordered; `rest` is `ids` without position `k`. */
  lemma RemoveOrdered(ids: seq<RequestId>, at: map<RequestId, nat>, total: nat, k: nat, rest: seq<RequestId>)
    requires Ordered(ids, at, total) && k < |ids| && |rest| == |ids| - 1
    requires forall i | 0 <= i < |rest| :: rest[i] == ids[if i < k then i else i + 1]
    ensures Ordered(rest, at - {ids[k]}, total) && ids[k] !in rest
  {
    assert forall i | 0 <= i < |rest| :: at[rest[i]] != at[ids[k]];
  }

  lemma RemoveKeepsOthers(ids: seq<RequestId>, k: nat, rest: seq<RequestId>)
    requires k < |ids| && |rest| == |ids| - 1
    requires forall i | 0 <= i < |rest| :: rest[i] == ids[if i < k then i else i + 1]
    ensures forall x | x in ids && x != ids[k] :: x in rest
  {
    forall x | x in ids && x != ids[k] ensures x in rest {
      var i :| 0 <= i < |ids| && ids[i] == x;
      assert rest[if i < k then i else i - 1] == x;
    }
  }

  lemma OrderedWithout(ids: seq<RequestId>, at: map<RequestId, nat>, total: nat, id: RequestId)
    requires Ordered(ids, at, total) && id !in ids
    ensures Ordered(ids, at - {id}, total)
  {}

  lemma OrderedIsDistinct(ids: seq<RequestId>, at: map<RequestId, nat>, total: nat)
    requires Ordered(ids, at, total)
    ensures forall i, j :: 0 <= i < j < |ids| ==> ids[i] != ids[j]
  {}

  lemma ForgetOrdered(ids: seq<RequestId>, at: map<RequestId, nat>, total: nat, id: RequestId)
    requires Ordered(ids, at, total) && Evicted(ids, at, total)
    ensures Ordered(Without(ids, id), at - {id}, total) && Evicted(Without(ids, id), at - {id}, total)
  {
    hide Ordered;
    OrderedIsDistinct(ids, at, total);
    var k := WithoutAt(ids, id);
    if id in ids {
      RemoveOrdered(ids, at, total, k, Without(ids, id));
      RemoveKeepsOthers(ids, k, Without(ids, id));
    } else {
      OrderedWithout(ids, at, total, id);
    }
  }

  lemma ForgetKeeps(s: State, id: RequestId)
    requires Inv(s)
    ensures Inv(s.(retired := Without(s.retired, id), retiredAt := s.retiredAt - {id}))
  {
    hide Ordered, Evicted;
    ForgetOrdered(s.retired, s.retiredAt, s.total, id);
  }

  function Activated(s: State, id: RequestId): State {
    s.(states := s.states[id := s.next], idOf := s.idOf[s.next := id], next := s.next + 1)
  }

  lemma ActivateKeeps(s: State, id: RequestId)
    requires Inv(s) && id !in s.retiredAt
    ensures Inv(Activated(s, id))
  {
    hide Ordered, Evicted;
  }

  lemma StartTimerKeeps(s: State, id: RequestId, a: Activation)
    requires Inv(s) && id in s.states && s.states[id] == a && a !in s.fired && a !in s.written
    ensures Inv(s.(timers := s.timers[id := a], sleeping := s.sleeping + {a}, delivered := s.delivered + {a}))
  {
    hide Ordered, Evicted;
  }

  lemma FreshIsNew(s: State)
    requires Inv(s)
    ensures s.next !in s.fired && s.next !in s.written
  {}

  lemma ArriveKeeps(s: State, id: RequestId)
    requires Inv(s)
    ensures Inv(Deliver(s, id)) && Inv(Arrive(s, id)) && Inv(ArriveOther(s, id))
  {
    hide Activations, Timers, Retired;
    ForgetKeeps(s, id);
    var s1 := s.(retired := Without(s.retired, id), retiredAt := s.retiredAt - {id});
    ActivateKeeps(s1, id);
    FreshIsNew(s);
    StartTimerKeeps(Activated(s1, id), id, s.next);
  }

  lemma WritesKeep(s: State, a: Activation)
    requires Inv(s)
    ensures Inv(BeginWrite(s, a)) && Inv(FailWrite(s, a))
  {
    hide Ordered, Evicted;
  }

  /** Retiring a fresh id appends it, and drops only the oldest when the list is full. */
  lemma RetireOrdered(ids: seq<RequestId>, at: map<RequestId, nat>, total: nat, id: RequestId)
    requires Ordered(ids, at, total) && Evicted(ids, at, total) && id !in at
    ensures var now := (if |ids| < MAX_RETIRED then ids else ids[1..]) + [id];
      Ordered(now, at[id := total], total + 1) && Evicted(now, at[id := total], total + 1)
  {
    var now := (if |ids| < MAX_RETIRED then ids else ids[1..]) + [id];
    assert forall x | x in ids && x !in now :: x == ids[0];
  }

  lemma RetireKeeps(s: State, id: RequestId)
    requires Retired(s) && id in s.states
    ensures Retired(Retire(s.(states := s.states - {id}), id))
    ensures Retire(s.(states := s.states - {id}), id).retired ==
      (if |s.retired| < MAX_RETIRED then s.retired else s.retired[1..]) + [id]
  {
    hide Evicted;
    RetireOrdered(s.retired, s.retiredAt, s.total, id);
    var k := WithoutAt(s.retired, id);
    var ids := s.retired + [id];
    if |s.retired| == MAX_RETIRED { assert ids[1..] == s.retired[1..] + [id]; }
  }

  ghost predicate Committed(s: State, t: State, a: Activation)
    requires a in s.idOf
  {
    && t.commits == s.commits + multiset{a} && t.written == s.written + {a} && t.writing == s.writing - {a}
    && t.idOf == s.idOf && t.next == s.next && t.delivered == s.delivered && t.fired == s.fired && t.closed == s.closed
    && var id := s.idOf[a];
       && t.states == (if id in s.states && s.states[id] == a then s.states - {id} else s.states)
       && (if id in s.timers && s.timers[id] == a then t.timers == s.timers - {id} && t.sleeping == s.sleeping - {a}
           else t.timers == s.timers && t.sleeping == s.sleeping)
  }

  lemma CommitShape(s: State, a: Activation)
    requires a in s.writing && a in s.idOf
    ensures Committed(s, Commit(s, a), a)
    ensures var id := s.idOf[a];
      var t := Retire(s.(states := s.states - {id}), id);
      if id in s.states && s.states[id] == a then
        Commit(s, a).retired == t.retired && Commit(s, a).total == t.total && Commit(s, a).retiredAt == t.retiredAt
      else Commit(s, a).retired == s.retired && Commit(s, a).total == s.total && Commit(s, a).retiredAt == s.retiredAt
  {
    hide Without;
    var id := s.idOf[a];
    var s1 := s.(writing := s.writing - {a}, written := s.written + {a}, commits := s.commits + multiset{a});
    if id in s.states && s.states[id] == a {
      RetireFrame(s1.(states := s1.states - {id}), s.(states := s.states - {id}), id);
      hide Retire;
      CancelShape(Retire(s1.(states := s1.states - {id}), id), a);
    } else {
      CancelShape(s1, a);
    }
  }

  /** Retiring an id reads and changes the retired list alone. */
  lemma RetireFrame(s: State, t: State, id: RequestId)
    requires t.retired == s.retired && t.total == s.total && t.retiredAt == s.retiredAt
    ensures var r, u := Retire(s, id), Retire(t, id);
      && r == s.(retired := r.retired, total := r.total, retiredAt := r.retiredAt)
      && u.retired == r.retired && u.total == r.total && u.retiredAt == r.retiredAt
  {}

  lemma CancelShape(s: State, a: Activation)
    requires a in s.idOf
    ensures var id := s.idOf[a];
      CancelTimer(s, a) ==
        if id in s.timers && s.timers[id] == a then s.(timers := s.timers - {id}, sleeping := s.sleeping - {a}) else s
  {}

  lemma CommitActivations(s: State, t: State, a: Activation)
    requires Activations(s) && a in s.writing && a in s.idOf && Committed(s, t, a)
    ensures Activations(t)
  {}

  lemma CommitTimers(s: State, t: State, a: Activation)
    requires Activations(s) && Timers(s) && a in s.writing && a in s.idOf && Committed(s, t, a)
    ensures Timers(t)
  {}

  lemma RetiredFrame(s: State, t: State)
    requires Retired(s) && t.states.Keys == s.states.Keys && t.retired == s.retired
    requires t.total == s.total && t.retiredAt == s.retiredAt
    ensures Retired(t)
  {}

  lemma CommitKeeps(s: State, a: Activation)
    requires Inv(s)
    ensures Inv(Commit(s, a))
  {
    if a !in s.writing || a !in s.idOf { return; }
    hide Activations, Timers, Retired, Commit, Retire, Committed;
    CommitShape(s, a);
    CommitActivations(s, Commit(s, a), a);
    CommitTimers(s, Commit(s, a), a);
    CommittedStates(s, Commit(s, a), a);
    var id := s.idOf[a];
    if id in s.states && s.states[id] == a {
      RetireKeeps(s, id);
      RetireStates(s.(states := s.states - {id}), id);
      RetiredFrame(Retire(s.(states := s.states - {id}), id), Commit(s, a));
    } else {
      RetiredFrame(s, Commit(s, a));
    }
  }

  lemma CommittedStates(s: State, t: State, a: Activation)
    requires a in s.idOf && Committed(s, t, a)
    ensures t.states == if s.idOf[a] in s.states && s.states[s.idOf[a]] == a then s.states - {s.idOf[a]} else s.states
  {}

  lemma RetireStates(s: State, id: RequestId)
    ensures Retire(s, id).states == s.states
  {}

  lemma FireTimers(s: State, a: Activation)
    requires Timers(s)
    ensures Timers(Fire(s, a)) && Timers(TimerEnds(s, a))
  {}

  lemma FireKeeps(s: State, a: Activation)
    requires Inv(s)
    ensures Inv(Fire(s, a)) && Inv(TimerEnds(s, a))
  {
    hide Retired, Activations, Timers;
    FireTimers(s, a);
    RetiredFrame(s, Fire(s, a));
    RetiredFrame(s, TimerEnds(s, a));
    ActivationsFrame(s, Fire(s, a));
    ActivationsFrame(s, TimerEnds(s, a));
  }

  lemma ActivationsFrame(s: State, t: State)
    requires Activations(s) && t.idOf == s.idOf && t.next == s.next && t.states == s.states && t.written == s.written
    requires t.writing == s.writing && t.commits == s.commits
    ensures Activations(t)
  {}

  lemma CloseKeeps(s: State)
    requires Inv(s)
    ensures Inv(Close(s))
  {}

  lemma StepKeeps(s: State, e: Event)
    requires Inv(s)
    ensures Inv(Step(s, e))
  {
    hide Inv, Deliver, Arrive, ArriveOther, BeginWrite, Commit, FailWrite, Fire, TimerEnds, Close;
    match e
    case EDeliver(id) => ArriveKeeps(s, id);
    case EUndelivered(id) => ArriveKeeps(s, id);
    case EOther(id) => ArriveKeeps(s, id);
    case EBeginWrite(a) => WritesKeep(s, a);
    case ECommit(a) => CommitKeeps(s, a);
    case EFailWrite(a) => WritesKeep(s, a);
    case EFire(a) => FireKeeps(s, a);
    case ETimerEnds(a) => FireKeeps(s, a);
    case EClose => CloseKeeps(s);
  }

  lemma {:induction false} ReachedKeeps(run: seq<Event>)
    ensures Inv(Reached(run))
  {
    hide Inv, Step;
    if run == [] { InitInv(); } else {
      ReachedKeeps(run[..|run| - 1]);
      StepKeeps(Reached(run[..|run| - 1]), run[|run| - 1]);
    }
  }

  // ----- what the client guarantees -----

  /** At most one response commits for an activation, whatever its handler, timer and writes do. */
  lemma OneCommitPerActivation(run: seq<Event>, a: Activation)
    ensures Reached(run).commits[a] <= 1
  {
    ReachedKeeps(run);
  }

  /** A delivered request that is not answered keeps its fallback timer until it fires or the client closes. */
  lemma FallbackStaysArmed(run: seq<Event>, a: Activation)
    requires var s := Reached(run); a in s.delivered && s.commits[a] == 0 && a !in s.fired && !s.closed
    ensures a in Reached(run).sleeping
    ensures var s := Reached(run);
      a in s.idOf && (s.idOf[a] in s.states && s.states[s.idOf[a]] == a ==> s.idOf[a] in s.timers && s.timers[s.idOf[a]] == a)
  {
    ReachedKeeps(run);
  }

  /** A write starts only for the current activation of an id: a stale timer never answers a reused id. */
  lemma OnlyTheCurrentActivationWrites(s: State, e: Event, a: Activation)
    requires Inv(s) && a !in s.writing && a in Step(s, e).writing
    ensures e == EBeginWrite(a) && a in s.idOf && s.idOf[a] in s.states && s.states[s.idOf[a]] == a && s.commits[a] == 0
  {
    if e.ECommit? && e.a in s.writing && e.a in s.idOf { CommitShape(s, e.a); }
  }

  /** Committing the current activation retires its id as the newest, dropping only the oldest of 1,024. */
  lemma CommitRetires(s: State, a: Activation)
    requires Inv(s) && a in s.writing && a in s.idOf && s.idOf[a] in s.states && s.states[s.idOf[a]] == a
    ensures Commit(s, a).retired == (if |s.retired| < MAX_RETIRED then s.retired else s.retired[1..]) + [s.idOf[a]]
    ensures RouteOf(Commit(s, a), s.idOf[a]) == Suppressed
  {
    hide Activations, Timers, Retired, Commit, Retire;
    CommitShape(s, a);
    RetireKeeps(s, s.idOf[a]);
    CommittedStates(s, Commit(s, a), a);
  }

  /**
   A late response to a retired id that was not reused is written again exactly when the id has left
   the retired list, and that takes at least 1,024 later retirements.
   */
  lemma LateResponseIsWrittenIffEvicted(run: seq<Event>, id: RequestId)
    requires id in Reached(run).retiredAt
    ensures var s := Reached(run);
      && (RouteOf(s, id) == Untracked <==> id !in s.retired)
      && (RouteOf(s, id) == Untracked ==> s.total - s.retiredAt[id] - 1 >= MAX_RETIRED)
  {
    ReachedKeeps(run);
  }

  // ----- eviction does happen -----

  function Name(n: nat): RequestId { seq(n, _ => 'x') }

  function Names(from: nat, to: nat): seq<RequestId>
    requires from <= to
  {
    seq(to - from, i requires 0 <= i < to - from => Name(from + i))
  }

  /** `n` requests, each answered before the next arrives. */
  function Answered(n: nat): seq<Event> {
    if n == 0 then [] else Answered(n - 1) + [EUndelivered(Name(n - 1))] + [EBeginWrite(n - 1)] + [ECommit(n - 1)]
  }

  lemma Extended(run: seq<Event>, e: Event)
    ensures Reached(run + [e]) == Step(Reached(run), e)
  {
    assert (run + [e])[..|run|] == run;
  }

  ghost predicate AllAnswered(s: State, n: nat) {
    && s.states == map[] && s.next == n && s.writing == {} && s.timers == map[] && (forall a | a in s.written :: a < n)
    && s.retired == Names(if n <= MAX_RETIRED then 0 else n - MAX_RETIRED, n)
    && (forall k: nat | k < n :: Name(k) in s.retiredAt)
  }

  lemma NamesGrow(n: nat)
    ensures var from := if n <= MAX_RETIRED then 0 else n - MAX_RETIRED;
      var all := Names(from, n) + [Name(n)];
      && Name(n) !in Names(from, n)
      && (if |all| > MAX_RETIRED then all[1..] else all) == Names(if n + 1 <= MAX_RETIRED then 0 else n + 1 - MAX_RETIRED, n + 1)
  {
    var from := if n <= MAX_RETIRED then 0 else n - MAX_RETIRED;
    forall i | 0 <= i < n - from ensures Names(from, n)[i] != Name(n) {
      assert Names(from, n)[i] == Name(from + i);
      NamesDiffer(n);
    }
  }

  lemma OneMoreArrives(s: State, n: nat)
    requires s.states == map[] && s.next == n && s.writing == {} && (forall a | a in s.written :: a < n)
    requires Name(n) !in s.retired
    ensures var s2 := Step(Step(s, EUndelivered(Name(n))), EBeginWrite(n));
      && s2.states == map[Name(n) := n] && s2.writing == {n} && s2.next == n + 1 && s2.timers == s.timers
      && s2.written == s.written && n in s2.idOf && s2.idOf[n] == Name(n)
      && s2.retired == s.retired && s2.retiredAt == s.retiredAt - {Name(n)}
  {
    NotIn(s.retired, Name(n));
  }

  lemma RetireIs(s: State, id: RequestId)
    requires id !in s.retired
    ensures var all := s.retired + [id];
      Retire(s, id).retired == (if |all| > MAX_RETIRED then all[1..] else all) && Retire(s, id).retiredAt == s.retiredAt[id := s.total]
  {
    NotIn(s.retired, id);
  }

  lemma OneMoreAnswered(s: State, n: nat)
    requires AllAnswered(s, n)
    ensures AllAnswered(Step(Step(Step(s, EUndelivered(Name(n))), EBeginWrite(n)), ECommit(n)), n + 1)
  {
    hide Arrive, BeginWrite, Retire, Names, Commit;
    NamesGrow(n);
    OneMoreArrives(s, n);
    var s2 := Step(Step(s, EUndelivered(Name(n))), EBeginWrite(n));
    CommitShape(s2, n);
    RetireIs(s2.(states := s2.states - {Name(n)}), Name(n));
    assert forall k: nat | k < n :: Name(k) != Name(n) by { NamesDiffer(n); }
  }

  lemma NamesDiffer(n: nat)
    ensures forall k: nat | k != n :: Name(k) != Name(n)
  {
    forall k: nat | k != n ensures Name(k) != Name(n) {
      assert |Name(k)| == k && |Name(n)| == n;
    }
  }

  lemma {:induction false} NotIn(ids: seq<RequestId>, id: RequestId)
    requires id !in ids
    ensures Without(ids, id) == ids
  {
    if ids != [] { NotIn(ids[1..], id); }
  }

  lemma {:induction false} AllAreAnswered(n: nat)
    ensures AllAnswered(Reached(Answered(n)), n)
  {
    hide Step, AllAnswered;
    if n == 0 {
      NoneAnswered();
    } else {
      var run := Answered(n - 1);
      AllAreAnswered(n - 1);
      OneMoreAnswered(Reached(run), n - 1);
      Extended(run, EUndelivered(Name(n - 1)));
      Extended(run + [EUndelivered(Name(n - 1))], EBeginWrite(n - 1));
      Extended(run + [EUndelivered(Name(n - 1))] + [EBeginWrite(n - 1)], ECommit(n - 1));
    }
  }

  lemma NoneAnswered()
    ensures AllAnswered(Init(), 0)
  {}

  /** After 1,025 answered requests a second response to the first one would be written. */
  lemma EvictedIdIsAnsweredTwice()
    ensures var s := Reached(Answered(MAX_RETIRED + 1));
      Name(0) in s.retiredAt && RouteOf(s, Name(0)) == Untracked
  {
    var s := Reached(Answered(MAX_RETIRED + 1));
    AllAreAnswered(MAX_RETIRED + 1);
    assert forall id | id in s.retired :: |id| >= 1;
  }

  // ----- the client object -----

  /** The JSON-RPC client's response tables: the same steps over its own fields. */
  class AppServerClient {
    var states: map<RequestId, Activation>
    var timers: map<RequestId, Activation>
    var retired: seq<RequestId>
    var written: set<Activation>
    var writing: set<Activation>
    var sleeping: set<Activation>
    var idOf: map<Activation, RequestId>
    var next: Activation
    var closed: bool
    ghost var commits: multiset<Activation>
    ghost var delivered: set<Activation>
    ghost var fired: set<Activation>
    ghost var total: nat
    ghost var retiredAt: map<RequestId, nat>

    ghost function View(): State
      reads this
    {
      State(states, timers, retired, written, writing, sleeping, idOf, next, closed, commits, delivered, fired, total, retiredAt)
    }

    constructor ()
      ensures View() == Init()
    {
      states, timers, retired, written, writing := map[], map[], [], {}, {};
      sleeping, idOf, next, closed := {}, map[], 0, false;
      commits, delivered, fired, total, retiredAt := multiset{}, {}, {}, 0, map[];
    }

    method Activate(id: RequestId) returns (state: Activation)
      modifies `retired, `retiredAt, `states, `idOf, `next
      ensures View() == Arrive(old(View()), id) && state == old(next)
    {
      retired := Without(retired, id);
      retiredAt := retiredAt - {id};
      state := next;
      next := next + 1;
      idOf := idOf[state := id];
      states := states[id := state];
    }

    method HandleToolRequest(id: RequestId, reached: bool)
      modifies this
      ensures View() == Step(old(View()), if reached then EDeliver(id) else EUndelivered(id))
    {
      hide Arrive;
      var state := Activate(id);
      if reached {
        timers := timers[id := state];
        sleeping := sleeping + {state};
        delivered := delivered + {state};
      }
    }

    /** The stretch of `_respond` that holds the lock; `write` says whether the write starts. */
    method EnterResponse(state: Activation) returns (write: bool)
      requires state in idOf && state !in writing
      modifies this
      ensures View() == Step(old(View()), EBeginWrite(state))
      ensures write <==> MayWrite(old(View()), state)
    {
      if state in written { return false; }
      if idOf[state] !in states || states[idOf[state]] != state { return false; }
      writing := writing + {state};
      return true;
    }

    method RetireId(id: RequestId)
      modifies `retired, `total, `retiredAt
      ensures View() == Retire(old(View()), id)
    {
      retired := Without(retired, id) + [id];
      if |retired| > MAX_RETIRED { retired := retired[1..]; }
      retiredAt := retiredAt[id := total];
      total := total + 1;
    }

    method CancelTimeout(state: Activation)
      requires state in idOf
      modifies `timers, `sleeping
      ensures View() == CancelTimer(old(View()), state)
    {
      var id := idOf[state];
      if id !in timers || timers[id] != state { return; }
      timers := timers - {id};
      sleeping := sleeping - {state};
    }

    method CommitResponse(state: Activation)
      requires state in writing && state in idOf
      modifies this
      ensures View() == Step(old(View()), ECommit(state))
    {
      hide Retire, CancelTimer;
      var id := idOf[state];
      writing := writing - {state};
      written := written + {state};
      commits := commits + multiset{state};
      ghost var s1 := View();
      assert s1 == old(View()).(writing := old(writing) - {state}, written := old(written) + {state},
                                commits := old(commits) + multiset{state});
      if id in states && states[id] == state {
        states := states - {id};
        assert View() == s1.(states := s1.states - {id});
        RetireId(id);
      }
      CancelTimeout(state);
    }

    /** The write raised or was cancelled: the lock is given back, and the state stays open for one more attempt. */
    method FailResponse(state: Activation)
      requires state in writing
      modifies `writing
      ensures View() == Step(old(View()), EFailWrite(state))
      ensures state !in writing && states == old(states) && written == old(written) && timers == old(timers)
    {
      writing := writing - {state};
    }

    method CloseClient()
      modifies this
      ensures View() == Step(old(View()), EClose)
    {
      var armed := timers.Values;
      sleeping := sleeping - armed;
      CloseTables();
    }

    method CloseTables()
      modifies `closed, `timers, `states, `retired, `retiredAt
      ensures View() == old(View()).(closed := true, timers := map[], states := map[], retired := [], retiredAt := map[])
    {
      closed := true;
      timers, states, retired := map[], map[], [];
      retiredAt := map[];
    }

    /** The timer's sleep is over. */
    method FireTimer(state: Activation)
      requires state in sleeping
      modifies `sleeping, `fired
      ensures View() == Step(old(View()), EFire(state))
    {
      sleeping := sleeping - {state};
      fired := fired + {state};
    }

    /** The `finally` of the timer task: it forgets only itself. */
    method EndTimer(state: Activation)
      requires state in fired && state in idOf
      modifies `timers
      ensures View() == Step(old(View()), ETimerEnds(state))
    {
      var id := idOf[state];
      if id in timers && timers[id] == state { timers := timers - {id}; }
    }
  }
}
