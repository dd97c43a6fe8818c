/**
 The bridge end of the Home Assistant tool protocol (`HomeAssistantToolBroker`): one authority
 connection at a time, pending and retired call ids, and outcome counters.

 Each await-free stretch is one step. A coroutine suspended inside `call` is an entry of `inFlight`.
 Tokens are fresh numbers.
 */
module ToolBroker {
  import opened Wrappers
  import opened ToolWire

  const MAX_PENDING_TOOL_CALLS := 16
  const MAX_RETIRED_TOOL_CALLS := 128

  datatype Call = Call(gen: Generation, conn: Connection, name: string, args: Json, sent: bool)

  datatype Retired = Retired(id: CallId, gen: Generation)

  datatype Counters = Counters(started: nat, succeeded: nat, failed: nat, timedOut: nat, transport: nat, cancelled: nat)

  datatype State = State(
    websocket: Option<Connection>,
    snapshot: Option<Snapshot>,
    pending: map<CallId, Generation>,
    retired: seq<Retired>,
    counters: Counters,
    futures: map<CallId, Future>,
    inFlight: map<CallId, Call>,
    nextCall: nat,
    nextGen: nat,
    resolutions: multiset<CallId>)  // history: one occurrence for every result or exception set on a future

  function Init(): State {
    State(None, None, map[], [], Counters(0, 0, 0, 0, 0, 0), map[], map[], 0, 0, multiset{})
  }

  // ----- the authority connection -----

  predicate Busy(s: State, currentClosed: bool) { s.websocket.Some? && !currentClosed }

  function Waiters(futures: map<CallId, Future>, ids: set<CallId>): set<CallId> {
    set id | id in ids && id in futures && futures[id].Waiting?
  }

  function Failed(futures: map<CallId, Future>, ids: set<CallId>): map<CallId, Future> {
    map id | id in futures :: if id in ids && futures[id].Waiting? then Disconnected else futures[id]
  }

  /** A disconnection fails every unresolved future it takes out of the pending map. */
  function Disconnect(s: State): State {
    s.(pending := map[], retired := [],
       futures := Failed(s.futures, s.pending.Keys),
       resolutions := s.resolutions + multiset(Waiters(s.futures, s.pending.Keys)))
  }

  function Register(s: State, conn: Connection, names: set<string>, currentClosed: bool): State {
    if Busy(s, currentClosed) then s
    else
      var s1 := if s.websocket.Some? then Disconnect(s) else s;
      s1.(websocket := Some(conn), snapshot := Some(Snapshot(s.nextGen, names)), nextGen := s.nextGen + 1)
  }

  function Unregister(s: State, conn: Connection): State {
    if s.websocket != Some(conn) then s else Disconnect(s).(websocket := None, snapshot := None)
  }

  // ----- messages from Home Assistant -----

  /** `Accepted` resolves the call, `Late` is dropped quietly, `Rejected` raises and ends the connection. */
  datatype Reply = Accepted | Late | Rejected

  function RetiredGeneration(retired: seq<Retired>, id: CallId): Option<Generation> {
    if retired == [] then None
    else if retired[0].id == id then Some(retired[0].gen)
    else RetiredGeneration(retired[1..], id)
  }

  function Without(retired: seq<Retired>, id: CallId): seq<Retired> {
    if retired == [] then []
    else if retired[0].id == id then Without(retired[1..], id)
    else [retired[0]] + Without(retired[1..], id)
  }

  function Receive(s: State, conn: Connection, gen: Generation, id: CallId, success: bool, value: Json): (State, Reply) {
    if s.websocket != Some(conn) || s.snapshot.None? || s.snapshot.value.gen != gen then (s, Rejected)
    else if id !in s.pending then
      (s.(retired := Without(s.retired, id)), if RetiredGeneration(s.retired, id) == Some(gen) then Late else Rejected)
    else
      var s1 := s.(pending := s.pending - {id});
      if s.pending[id] != gen || id !in s.futures || !s.futures[id].Waiting? then (s1, Rejected)
      else (s1.(futures := s.futures[id := Resolved(success, value)], resolutions := s.resolutions + multiset{id}), Accepted)
  }

  // ----- calls -----

  function Refuses(s: State, snapshot: Snapshot, closed: bool, name: string, argsFit: bool): Option<Refusal> {
    if s.snapshot.None? || s.snapshot.value.gen != snapshot.gen || s.websocket.None? || closed then Some(AuthorityChanged)
    else if name !in snapshot.names then Some(UndeclaredTool)
    else if !argsFit then Some(ArgumentsTooLarge)
    else if |s.pending| >= MAX_PENDING_TOOL_CALLS then Some(TooManyPending)
    else None
  }

  /** `call` up to its first await. */
  function Begin(s: State, snapshot: Snapshot, closed: bool, name: string, args: Json, argsFit: bool): State {
    if Refuses(s, snapshot, closed, name, argsFit).Some? then s
    else
      var id := s.nextCall;
      s.(pending := s.pending[id := snapshot.gen],
         counters := s.counters.(started := s.counters.started + 1),
         futures := s.futures[id := Waiting],
         inFlight := s.inFlight[id := Call(snapshot.gen, s.websocket.value, name, args, false)],
         nextCall := id + 1)
  }

  function Sent(s: State, id: CallId): State {
    if id in s.inFlight then s.(inFlight := s.inFlight[id := s.inFlight[id].(sent := true)]) else s
  }

  function Newest(retired: seq<Retired>): seq<Retired> {
    if |retired| > MAX_RETIRED_TOOL_CALLS then Newest(retired[1..]) else retired
  }

  /** The `finally` block of `call`. */
  function Finish(s: State, id: CallId, completed: bool): State
    requires id in s.inFlight
  {
    var gen := s.inFlight[id].gen;
    var s1 := s.(pending := s.pending - {id}, inFlight := s.inFlight - {id});
    var s2 := if !completed && s.snapshot.Some? && s.snapshot.value.gen == gen
              then s1.(retired := Newest(Without(s.retired, id) + [Retired(id, gen)])) else s1;
    if id in s.futures && s.futures[id].Waiting? then s2.(futures := s.futures[id := Abandoned]) else s2
  }

  /** A call that returns has been sent and its future is done; the other endings may come at any await. */
  predicate MayEnd(s: State, id: CallId, ending: Ending) {
    && id in s.inFlight && id in s.futures
    && (ending.Returned? ==> s.inFlight[id].sent && (s.futures[id].Resolved? || s.futures[id].Disconnected?))
  }

  function Count(c: Counters, ending: Ending, f: Future): Counters {
    match ending
    case Returned =>
      if f.Resolved? && f.success then c.(succeeded := c.succeeded + 1)
      else if f.Resolved? then c.(failed := c.failed + 1)
      else c.(transport := c.transport + 1)
    case TimedOut => c.(timedOut := c.timedOut + 1)
    case Cancelled => c.(cancelled := c.cancelled + 1)
    case SendFailed => c.(transport := c.transport + 1)
  }

  function End(s: State, id: CallId, ending: Ending): State {
    if !MayEnd(s, id, ending) then s
    else
      Finish(s, id, ending.Returned? && s.futures[id].Resolved?).(counters := Count(s.counters, ending, s.futures[id]))
  }

  datatype Event =
    | ERegister(conn: Connection, names: set<string>, currentClosed: bool)
    | EUnregister(conn: Connection)
    | EReceive(conn: Connection, gen: Generation, id: CallId, success: bool, value: Json)
    | EBegin(snapshot: Snapshot, closed: bool, name: string, args: Json, argsFit: bool)
    | ESent(id: CallId)
    | EEnd(id: CallId, ending: Ending)

  function Step(s: State, e: Event): State {
    match e
    case ERegister(conn, names, currentClosed) => Register(s, conn, names, currentClosed)
    case EUnregister(conn) => Unregister(s, conn)
    case EReceive(conn, gen, id, success, value) => Receive(s, conn, gen, id, success, value).0
    case EBegin(snapshot, closed, name, args, argsFit) => Begin(s, snapshot, closed, name, args, argsFit)
    case ESent(id) => Sent(s, id)
    case EEnd(id, ending) => End(s, id, ending)
  }

  function Reached(run: seq<Event>): State {
    if run == [] then Init() else Step(Reached(run[..|run| - 1]), run[|run| - 1])
  }

  // ----- the invariant -----

  ghost predicate IsRetired(s: State, id: CallId) { exists r :: r in s.retired && r.id == id }

  /** Pending calls are the waiting ones; pending and retired ids belong to the current generation. */
  ghost predicate Correlated(s: State) {
    && (s.websocket.Some? <==> s.snapshot.Some?)
    && (s.snapshot.None? ==> s.pending == map[] && s.retired == [])
    && (forall id | id in s.pending ::
          && id in s.inFlight && s.inFlight[id].gen == s.pending[id]
          && s.snapshot.Some? && s.pending[id] == s.snapshot.value.gen)
    && (forall id: CallId :: id in s.pending <==> id in s.futures && s.futures[id].Waiting?)
  }

  ghost predicate RetiredOk(s: State) {
    && (forall r | r in s.retired ::
          r.id < s.nextCall && r.id !in s.inFlight && s.snapshot.Some? && r.gen == s.snapshot.value.gen)
    && (forall i, j :: 0 <= i < j < |s.retired| ==> s.retired[i].id != s.retired[j].id)
    && |s.retired| <= MAX_RETIRED_TOOL_CALLS
  }

  ghost predicate Tokens(s: State) {
    && (forall id: CallId :: id in s.futures <==> id < s.nextCall)
    && (forall id | id in s.inFlight :: id < s.nextCall && s.inFlight[id].gen < s.nextGen)
    && (s.snapshot.Some? ==> s.snapshot.value.gen < s.nextGen)
    && (forall id: CallId :: s.resolutions[id] == if id in s.futures && (s.futures[id].Resolved? || s.futures[id].Disconnected?) then 1 else 0)
  }

  function Ended(c: Counters): nat { c.succeeded + c.failed + c.timedOut + c.transport + c.cancelled }

  ghost predicate Accounted(s: State) {
    && s.counters.started == Ended(s.counters) + |s.inFlight|
    && |s.pending| <= MAX_PENDING_TOOL_CALLS
  }

  ghost predicate Inv(s: State) { Correlated(s) && RetiredOk(s) && Tokens(s) && Accounted(s) }

  lemma InitInv()
    ensures Inv(Init())
  {
    InitTokens();
    InitAccounted();
    hide Tokens, Accounted;
  }

  lemma InitTokens() ensures Tokens(Init()) {}

  lemma InitAccounted()
    ensures Accounted(Init())
  {
    InitSizes();
    NothingEnded();
    hide Init, Ended;
  }

  lemma InitSizes() ensures |Init().inFlight| == 0 && |Init().pending| == 0 {}

  lemma NothingEnded() ensures Init().counters.started == 0 && Ended(Init().counters) == 0 {}

  lemma DisconnectTokens(s: State)
    requires Correlated(s) && Tokens(s)
    ensures Tokens(Disconnect(s).(websocket := None, snapshot := None))
  {
    hide Accounted, RetiredOk;
  }

  lemma DisconnectKeeps(s: State)
    requires Inv(s)
    ensures Inv(Disconnect(s).(websocket := None, snapshot := None))
  {
    hide Tokens;
    DisconnectTokens(s);
  }

  lemma ConnectKeeps(s: State, conn: Connection, names: set<string>)
    requires Inv(s) && s.snapshot.None?
    ensures Inv(s.(websocket := Some(conn), snapshot := Some(Snapshot(s.nextGen, names)), nextGen := s.nextGen + 1))
  {}

  lemma RegisterKeeps(s: State, conn: Connection, names: set<string>, currentClosed: bool)
    requires Inv(s)
    ensures Inv(Register(s, conn, names, currentClosed)) && Inv(Unregister(s, conn))
  {
    if s.websocket.Some? {
      hide Inv, Correlated, RetiredOk, Tokens, Accounted, Disconnect;
      DisconnectKeeps(s);
      DisconnectLeaves(s);
      ConnectKeeps(Disconnect(s).(websocket := None, snapshot := None), conn, names);
    } else {
      hide RetiredOk, Tokens, Accounted;
      ConnectKeeps(s, conn, names);
    }
  }

  lemma DisconnectLeaves(s: State)
    ensures Disconnect(s).nextGen == s.nextGen
  {}

  lemma {:induction false} WithoutIsSubset(retired: seq<Retired>, id: CallId)
    ensures forall r :: r in Without(retired, id) <==> r in retired && r.id != id
    ensures |Without(retired, id)| <= |retired|
    ensures (forall i, j :: 0 <= i < j < |retired| ==> retired[i].id != retired[j].id) ==>
      forall i, j :: 0 <= i < j < |Without(retired, id)| ==> Without(retired, id)[i].id != Without(retired, id)[j].id
  {
    if retired != [] {
      WithoutIsSubset(retired[1..], id);
      assert retired == [retired[0]] + retired[1..];
      if forall i, j :: 0 <= i < j < |retired| ==> retired[i].id != retired[j].id {
        assert forall i, j :: 0 <= i < j < |retired[1..]| ==> retired[1..][i].id != retired[1..][j].id;
        assert forall r | r in retired[1..] :: r.id != retired[0].id;
      }
    }
  }

  lemma {:induction false} RetiredGenerationFound(retired: seq<Retired>, id: CallId)
    ensures RetiredGeneration(retired, id).Some? <==> exists r :: r in retired && r.id == id
    ensures RetiredGeneration(retired, id).Some? ==> Retired(id, RetiredGeneration(retired, id).value) in retired
  {
    if retired != [] {
      RetiredGenerationFound(retired[1..], id);
      assert retired == [retired[0]] + retired[1..];
      assert retired[0] in retired;
    }
  }

  lemma {:induction false} NewestIsSuffix(retired: seq<Retired>)
    ensures var n := |retired| - |Newest(retired)|;
      && 0 <= n && Newest(retired) == retired[n..] && |Newest(retired)| <= MAX_RETIRED_TOOL_CALLS
      && (n > 0 ==> |Newest(retired)| == MAX_RETIRED_TOOL_CALLS)
  {
    if |retired| > MAX_RETIRED_TOOL_CALLS { NewestIsSuffix(retired[1..]); }
  }

  lemma ForgetRetiredKeeps(s: State, id: CallId)
    requires Inv(s)
    ensures Inv(s.(retired := Without(s.retired, id)))
  {
    WithoutIsSubset(s.retired, id);
  }

  lemma ResolveKeeps(s: State, id: CallId, success: bool, value: Json)
    requires Inv(s) && id in s.pending
    ensures Inv(s.(pending := s.pending - {id}, futures := s.futures[id := Resolved(success, value)],
                   resolutions := s.resolutions + multiset{id}))
  {
    assert |s.pending - {id}| <= |s.pending| by { PendingShrinks(s.pending, id); }
  }

  lemma PendingShrinks(pending: map<CallId, Generation>, id: CallId)
    ensures |pending - {id}| <= |pending|
  {
    assert (pending - {id}).Keys <= pending.Keys;
    SubsetSize((pending - {id}).Keys, pending.Keys);
    assert |pending| == |pending.Keys|;
    assert |pending - {id}| == |(pending - {id}).Keys|;
  }

  lemma SubsetSize<T>(a: set<T>, b: set<T>)
    requires a <= b
    ensures |a| <= |b|
  {
    assert b == a + (b - a);
  }

  lemma ReceiveKeeps(s: State, conn: Connection, gen: Generation, id: CallId, success: bool, value: Json)
    requires Inv(s)
    ensures Inv(Receive(s, conn, gen, id, success, value).0)
  {
    ForgetRetiredKeeps(s, id);
    if id in s.pending {
      hide RetiredOk, Tokens, Accounted;
      ResolveKeeps(s, id, success, value);
    }
  }

  lemma BeginAccounted(s: State, id: CallId, c: Call)
    requires Accounted(s) && id !in s.inFlight && id !in s.pending && |s.pending| < MAX_PENDING_TOOL_CALLS
    ensures s.counters.started + 1 == Ended(s.counters) + |s.inFlight[id := c]|
    ensures |s.pending[id := c.gen]| <= MAX_PENDING_TOOL_CALLS
  {
    MapGrows(s.inFlight, id, c);
    MapGrows(s.pending, id, c.gen);
  }

  lemma BeginTokens(s: State, c: Call)
    requires Correlated(s) && Tokens(s) && s.snapshot.Some? && s.snapshot.value.gen == c.gen
    ensures var t := s.(pending := s.pending[s.nextCall := c.gen], futures := s.futures[s.nextCall := Waiting],
                        inFlight := s.inFlight[s.nextCall := c], nextCall := s.nextCall + 1);
      Correlated(t) && Tokens(t)
  {}

  lemma BeginKeeps(s: State, snapshot: Snapshot, closed: bool, name: string, args: Json, argsFit: bool)
    requires Inv(s)
    ensures Inv(Begin(s, snapshot, closed, name, args, argsFit))
  {
    if Refuses(s, snapshot, closed, name, argsFit).Some? { return; }
    var c := Call(snapshot.gen, s.websocket.value, name, args, false);
    BeginAccounted(s, s.nextCall, c);
    BeginTokens(s, c);
    CountersAside(s.(pending := s.pending[s.nextCall := c.gen], futures := s.futures[s.nextCall := Waiting],
                     inFlight := s.inFlight[s.nextCall := c], nextCall := s.nextCall + 1),
                  s.counters.(started := s.counters.started + 1));
  }

  lemma CountersAside(s: State, counters: Counters)
    requires Correlated(s) && Tokens(s)
    ensures Correlated(s.(counters := counters)) && Tokens(s.(counters := counters))
  {}

  lemma MapGrows<V>(m: map<CallId, V>, id: CallId, v: V)
    requires id !in m
    ensures |m[id := v]| == |m| + 1
  {
    assert m[id := v].Keys == m.Keys + {id};
    assert |m[id := v].Keys| == |m[id := v]| && |m.Keys| == |m|;
  }

  lemma MapShrinks<V>(m: map<CallId, V>, id: CallId)
    requires id in m
    ensures |m - {id}| == |m| - 1
  {
    assert (m - {id}).Keys == m.Keys - {id};
    assert |(m - {id}).Keys| == |m - {id}| && |m.Keys| == |m|;
  }

  lemma SentKeeps(s: State, id: CallId)
    requires Inv(s)
    ensures Inv(Sent(s, id))
  {
    if id in s.inFlight {
      assert s.inFlight[id := s.inFlight[id].(sent := true)].Keys == s.inFlight.Keys;
      assert |s.inFlight[id := s.inFlight[id].(sent := true)].Keys| == |s.inFlight.Keys|;
    }
  }

  lemma FinishCorrelated(s: State, id: CallId, completed: bool)
    requires Correlated(s) && Tokens(s) && id in s.inFlight
    ensures Correlated(Finish(s, id, completed)) && Tokens(Finish(s, id, completed))
  {
    hide Newest, Without;
    if s.futures[id].Waiting? { return; }
  }

  lemma EndCorrelated(s: State, id: CallId, ending: Ending)
    requires Correlated(s) && Tokens(s)
    ensures Correlated(End(s, id, ending)) && Tokens(End(s, id, ending))
  {
    if !MayEnd(s, id, ending) { return; }
    hide Finish;
    FinishCorrelated(s, id, ending.Returned? && s.futures[id].Resolved?);
  }

  lemma AppendRetired(s: State, id: CallId)
    requires RetiredOk(s) && id in s.inFlight && id < s.nextCall && s.snapshot.Some? && s.snapshot.value.gen == s.inFlight[id].gen
    ensures var all := s.retired + [Retired(id, s.inFlight[id].gen)];
      && Without(s.retired, id) == s.retired
      && (forall r | r in all :: r.id < s.nextCall && r.id !in s.inFlight - {id} && r.gen == s.snapshot.value.gen)
      && (forall i, j :: 0 <= i < j < |all| ==> all[i].id != all[j].id)
  {
    NotRetiredWithout(s.retired, id);
  }

  lemma RetireKeeps(s: State, id: CallId)
    requires RetiredOk(s) && id in s.inFlight && id < s.nextCall
    requires s.snapshot.Some? && s.snapshot.value.gen == s.inFlight[id].gen
    ensures var kept := Newest(Without(s.retired, id) + [Retired(id, s.inFlight[id].gen)]);
      RetiredOk(s.(retired := kept, inFlight := s.inFlight - {id}))
  {
    hide Newest, Without;
    var all := s.retired + [Retired(id, s.inFlight[id].gen)];
    AppendRetired(s, id);
    NewestIsSuffix(all);
    assert forall r | r in Newest(all) :: r in all;
  }

  lemma LeaveRetired(s: State, t: State, id: CallId)
    requires RetiredOk(s) && t.retired == s.retired && t.inFlight == s.inFlight - {id}
    requires t.snapshot == s.snapshot && t.nextCall == s.nextCall
    ensures RetiredOk(t)
  {}

  lemma EndRetired(s: State, id: CallId, ending: Ending)
    requires Inv(s)
    ensures RetiredOk(End(s, id, ending))
  {
    if !MayEnd(s, id, ending) { return; }
    hide RetiredOk, Correlated, Accounted, Newest, Without;
    var completed := ending.Returned? && s.futures[id].Resolved?;
    if !completed && s.snapshot.Some? && s.snapshot.value.gen == s.inFlight[id].gen {
      RetireKeeps(s, id);
      var kept := Newest(Without(s.retired, id) + [Retired(id, s.inFlight[id].gen)]);
      RetiredFrame(s.(retired := kept, inFlight := s.inFlight - {id}), End(s, id, ending));
    } else {
      LeaveRetired(s, End(s, id, ending), id);
    }
  }

  lemma RetiredFrame(s: State, t: State)
    requires RetiredOk(s) && t.retired == s.retired && t.inFlight == s.inFlight
    requires t.snapshot == s.snapshot && t.nextCall == s.nextCall
    ensures RetiredOk(t)
  {}

  lemma EndAccounted(s: State, id: CallId, ending: Ending)
    requires Accounted(s)
    ensures Accounted(End(s, id, ending))
  {
    if !MayEnd(s, id, ending) { return; }
    MapShrinks(s.inFlight, id);
    PendingShrinks(s.pending, id);
    CountsOne(s.counters, ending, s.futures[id]);
    hide Count, Ended, Newest, Without;
    assert End(s, id, ending).inFlight == s.inFlight - {id} && End(s, id, ending).pending == s.pending - {id};
  }

  lemma CountsOne(c: Counters, ending: Ending, f: Future)
    ensures Count(c, ending, f).started == c.started && Ended(Count(c, ending, f)) == Ended(c) + 1
  {}

  lemma EndKeeps(s: State, id: CallId, ending: Ending)
    requires Inv(s)
    ensures Inv(End(s, id, ending))
  {
    hide Correlated, RetiredOk, Tokens, Accounted, End;
    EndCorrelated(s, id, ending);
    EndRetired(s, id, ending);
    EndAccounted(s, id, ending);
  }

  lemma StepKeeps(s: State, e: Event)
    requires Inv(s)
    ensures Inv(Step(s, e))
  {
    hide Inv, Correlated, RetiredOk, Tokens, Accounted;
    match e
    case ERegister(conn, names, currentClosed) => RegisterKeeps(s, conn, names, currentClosed);
    case EUnregister(conn) => RegisterKeeps(s, conn, {}, true);
    case EReceive(conn, gen, id, success, value) => ReceiveKeeps(s, conn, gen, id, success, value);
    case EBegin(snapshot, closed, name, args, argsFit) => BeginKeeps(s, snapshot, closed, name, args, argsFit);
    case ESent(id) => SentKeeps(s, id);
    case EEnd(id, ending) => EndKeeps(s, id, ending);
  }

  lemma {:induction false} ReachedKeeps(run: seq<Event>)
    ensures Inv(Reached(run))
  {
    hide Inv, Step;
    if run == [] { InitInv(); } else {
      ReachedKeeps(run[..|run| - 1]);
      StepKeeps(Reached(run[..|run| - 1]), run[|run| - 1]);
    }
  }

  // ----- what the broker guarantees -----

  /**
   In every reachable state pending and retired ids are disjoint, carry the current generation and
   are bounded, a call is pending exactly while its future waits, and every started call is counted once.
   */
  lemma BookkeepingIsSound(run: seq<Event>)
    ensures var s := Reached(run);
      && (forall r | r in s.retired :: r.id !in s.pending)
      && (forall id | id in s.pending :: s.snapshot.Some? && s.pending[id] == s.snapshot.value.gen)
      && (forall r | r in s.retired :: s.snapshot.Some? && r.gen == s.snapshot.value.gen)
      && |s.pending| <= MAX_PENDING_TOOL_CALLS && |s.retired| <= MAX_RETIRED_TOOL_CALLS
      && (forall id: CallId :: id in s.pending <==> id in s.futures && s.futures[id].Waiting?)
      && s.counters.started == Ended(s.counters) + |s.inFlight|
  {
    ReachedKeeps(run);
  }

  /** Every future is resolved at most once over a whole run. */
  lemma EachFutureResolvedOnce(run: seq<Event>, id: CallId)
    ensures Reached(run).resolutions[id] <= 1
  {
    ReachedKeeps(run);
  }

  /** A future that is done stays as it is. */
  lemma DoneIsFinal(s: State, e: Event, id: CallId)
    requires Inv(s) && id in s.futures && !s.futures[id].Waiting?
    ensures id in Step(s, e).futures && Step(s, e).futures[id] == s.futures[id]
  {
    if e.EEnd? && MayEnd(s, e.id, e.ending) { return; }
  }

  /**
   A result resolves its own call and no other, and only while that call is pending under the
   current generation on the current connection. A late result of the generation is dropped once.
   */
  lemma ResultReachesOnlyItsCall(s: State, conn: Connection, gen: Generation, id: CallId, success: bool, value: Json)
    requires Inv(s)
    ensures var (t, reply) := Receive(s, conn, gen, id, success, value);
      && (reply.Accepted? <==>
            s.websocket == Some(conn) && s.snapshot.value.gen == gen && id in s.futures && s.futures[id].Waiting?)
      && (reply.Accepted? ==> t.futures == s.futures[id := Resolved(success, value)] && id !in t.pending)
      && (!reply.Accepted? ==> t.futures == s.futures && t.pending == s.pending)
      && (reply.Late? <==> s.websocket == Some(conn) && s.snapshot.value.gen == gen && IsRetired(s, id))
      && (reply.Late? ==> !IsRetired(t, id))
  {
    RetiredGenerationFound(s.retired, id);
    WithoutIsSubset(s.retired, id);
    if IsRetired(s, id) { assert id !in s.inFlight; }
  }

  /** The retired list holds the newest timed-out, cancelled or failed calls of the generation, oldest first. */
  lemma RetiredIsNewestSuffix(s: State, id: CallId, ending: Ending)
    requires Inv(s) && MayEnd(s, id, ending)
    ensures End(s, id, ending).retired ==
      if s.snapshot.Some? && s.snapshot.value.gen == s.inFlight[id].gen && !(ending.Returned? && s.futures[id].Resolved?)
      then LastOf(s.retired + [Retired(id, s.inFlight[id].gen)], MAX_RETIRED_TOOL_CALLS) else s.retired
  {
    hide Correlated, Tokens, Accounted;
    NotRetiredWithout(s.retired, id);
    NewestIsSuffix(s.retired + [Retired(id, s.inFlight[id].gen)]);
  }

  function LastOf<T>(xs: seq<T>, n: nat): seq<T> {
    if |xs| <= n then xs else xs[|xs| - n..]
  }

  lemma {:induction false} NotRetiredWithout(retired: seq<Retired>, id: CallId)
    requires forall r | r in retired :: r.id != id
    ensures Without(retired, id) == retired
  {
    if retired != [] {
      assert retired[0] in retired;
      NotRetiredWithout(retired[1..], id);
    }
  }

  lemma FailNone(futures: map<CallId, Future>)
    ensures Failed(futures, {}) == futures && Waiters(futures, {}) == {}
  {}

  lemma FailOne(futures: map<CallId, Future>, ids: set<CallId>, id: CallId)
    requires id in ids
    ensures var waits := id in futures && futures[id].Waiting?;
      var after := if waits then futures[id := Disconnected] else futures;
      && Failed(after, ids - {id}) == Failed(futures, ids)
      && multiset(Waiters(futures, ids)) == multiset(Waiters(after, ids - {id})) + if waits then multiset{id} else multiset{}
  {
    var waits := id in futures && futures[id].Waiting?;
    var after := if waits then futures[id := Disconnected] else futures;
    assert Waiters(futures, ids) == Waiters(after, ids - {id}) + if waits then {id} else {};
  }

  /** The broker object: the same steps over its own fields. */
  class HomeAssistantToolBroker {
    var websocket: Option<Connection>
    var snapshot: Option<Snapshot>
    var pending: map<CallId, Generation>
    var retired: seq<Retired>
    var counters: Counters
    var futures: map<CallId, Future>
    var inFlight: map<CallId, Call>
    var nextCall: nat
    var nextGen: nat
    ghost var resolutions: multiset<CallId>

    ghost function View(): State
      reads this
    {
      State(websocket, snapshot, pending, retired, counters, futures, inFlight, nextCall, nextGen, resolutions)
    }

    constructor ()
      ensures View() == Init()
    {
      websocket, snapshot, pending, retired := None, None, map[], [];
      counters := Counters(0, 0, 0, 0, 0, 0);
      futures, inFlight, nextCall, nextGen := map[], map[], 0, 0;
      resolutions := multiset{};
    }

    /** Clears the correlation tables and fails every future in them that is not done. */
    method FailPending()
      modifies `pending, `retired, `futures, `resolutions
      ensures View() == Disconnect(old(View()))
    {
      hide Failed, Waiters;
      var stale := pending.Keys;
      pending, retired := map[], [];
      while stale != {}
        invariant Failed(futures, stale) == Failed(old(futures), old(pending).Keys)
        invariant resolutions + multiset(Waiters(futures, stale)) ==
                  old(resolutions) + multiset(Waiters(old(futures), old(pending).Keys))
        modifies `futures, `resolutions
        decreases |stale|
      {
        var id :| id in stale;
        FailOne(futures, stale, id);
        stale := stale - {id};
        if id in futures && futures[id].Waiting? {
          futures := futures[id := Disconnected];
          resolutions := resolutions + multiset{id};
        }
      }
      FailNone(futures);
    }

    method Attach(conn: Connection, names: set<string>, currentClosed: bool) returns (registered: bool)
      modifies this
      ensures View() == Step(old(View()), ERegister(conn, names, currentClosed))
      ensures registered == !Busy(old(View()), currentClosed)
    {
      if websocket.Some? && !currentClosed { return false; }
      if websocket.Some? { FailPending(); }
      websocket := Some(conn);
      snapshot := Some(Snapshot(nextGen, names));
      nextGen := nextGen + 1;
      return true;
    }

    method Detach(conn: Connection)
      modifies this
      ensures View() == Step(old(View()), EUnregister(conn))
    {
      if websocket != Some(conn) { return; }
      FailPending();
      websocket, snapshot := None, None;
    }

    method HandleResult(conn: Connection, gen: Generation, id: CallId, success: bool, value: Json) returns (reply: Reply)
      modifies this
      ensures View() == Receive(old(View()), conn, gen, id, success, value).0
      ensures reply == Receive(old(View()), conn, gen, id, success, value).1
    {
      if websocket != Some(conn) { return Rejected; }
      if snapshot.None? || snapshot.value.gen != gen { return Rejected; }
      if id !in pending {
        var held := RetiredGeneration(retired, id);
        retired := Without(retired, id);
        return if held == Some(gen) then Late else Rejected;
      }
      var call := pending[id];
      pending := pending - {id};
      if call != gen { return Rejected; }
      if id !in futures || !futures[id].Waiting? { return Rejected; }
      futures := futures[id := Resolved(success, value)];
      resolutions := resolutions + multiset{id};
      return Accepted;
    }

    method StartCall(bound: Snapshot, closed: bool, name: string, args: Json, argsFit: bool) returns (why: Option<Refusal>)
      modifies this
      ensures View() == Step(old(View()), EBegin(bound, closed, name, args, argsFit))
      ensures why == Refuses(old(View()), bound, closed, name, argsFit)
    {
      if snapshot.None? || snapshot.value.gen != bound.gen || websocket.None? || closed { return Some(AuthorityChanged); }
      if name !in bound.names { return Some(UndeclaredTool); }
      if !argsFit { return Some(ArgumentsTooLarge); }
      if |pending| >= MAX_PENDING_TOOL_CALLS { return Some(TooManyPending); }
      var id := nextCall;
      nextCall := nextCall + 1;
      futures := futures[id := Waiting];
      pending := pending[id := bound.gen];
      counters := counters.(started := counters.started + 1);
      inFlight := inFlight[id := Call(bound.gen, websocket.value, name, args, false)];
      return None;
    }

    /** The outcome counter, then the `finally` block with its bounded retired list. */
    method EndCall(id: CallId, ending: Ending)
      requires MayEnd(View(), id, ending)
      modifies this
      ensures View() == Step(old(View()), EEnd(id, ending))
    {
      hide Without;
      var completed := ending.Returned? && futures[id].Resolved?;
      var gen := inFlight[id].gen;
      counters := Count(counters, ending, futures[id]);
      pending := pending - {id};
      inFlight := inFlight - {id};
      if !completed && snapshot.Some? && snapshot.value.gen == gen {
        retired := Without(retired, id) + [Retired(id, gen)];
        ghost var all := retired;
        while |retired| > MAX_RETIRED_TOOL_CALLS
          invariant Newest(retired) == Newest(all)
          modifies `retired
          decreases |retired|
        {
          retired := retired[1..];
        }
      }
      if futures[id].Waiting? { futures := futures[id := Abandoned]; }
    }
  }
}
