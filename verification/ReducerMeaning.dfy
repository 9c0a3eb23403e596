/**
 What the analytics reducer reports, told by the facts of a run alone: which of
 them came last, and which were not answered yet.
 */
module ReducerMeaning {
  import opened Basics
  import opened Reducer

  function At<K, V>(m: map<K, V>, k: K): Option<V> {
    if k in m then Some(m[k]) else None
  }

  /** The last position below `n`, and not below `from`, of which something holds. */
  ghost function Latest(from: nat, n: nat, holds: nat -> bool): (r: Option<nat>)
    ensures r.Some? ==> from <= r.value < n && holds(r.value) && forall j :: r.value < j < n ==> !holds(j)
    ensures r.None? ==> forall j :: from <= j < n ==> !holds(j)
  {
    if n <= from then None else if holds(n - 1) then Some(n - 1) else Latest(from, n - 1, holds)
  }

  ghost function HowMany(from: nat, n: nat, holds: nat -> bool): nat {
    if n <= from then 0 else HowMany(from, n - 1, holds) + if holds(n - 1) then 1 else 0
  }

  // ---------- connections and threads ----------

  ghost function Initializing(facts: seq<Fact>, c: ConnectionId): nat -> bool {
    (i: nat) => i < |facts| && facts[i].Initialize? && facts[i].connectionId == c
  }

  /** A connection is what it was last initialized as. */
  ghost function ConnectionAt(facts: seq<Fact>, n: nat, c: ConnectionId): Option<Connection>
    requires n <= |facts|
  {
    var i := Latest(0, n, Initializing(facts, c));
    if i.Some? then Some(facts[i.value].connection) else None
  }

  ghost predicate Opens(facts: seq<Fact>, i: nat, thread: string)
    requires i < |facts|
  {
    && facts[i].Response? && facts[i].response.ThreadOpened? && facts[i].response.thread.id == thread
    && ConnectionAt(facts, i, facts[i].connectionId).Some?
  }

  ghost function Opening(facts: seq<Fact>, thread: string): nat -> bool {
    (i: nat) => i < |facts| && Opens(facts, i, thread)
  }

  /** A thread is what it was last opened as on an initialized connection. */
  ghost function OpeningAt(facts: seq<Fact>, n: nat, thread: string): (r: Option<nat>)
    requires n <= |facts|
    ensures r.Some? ==> r.value < n && Opens(facts, r.value, thread)
  {
    Latest(0, n, Opening(facts, thread))
  }

  ghost function ThreadConnectionAt(facts: seq<Fact>, n: nat, thread: string): Option<ConnectionId>
    requires n <= |facts|
  {
    var i := OpeningAt(facts, n, thread);
    if i.Some? then Some(facts[i.value].connectionId) else None
  }

  ghost function MetadataAt(facts: seq<Fact>, n: nat, thread: string): Option<ThreadMetadata>
    requires n <= |facts|
  {
    var i := OpeningAt(facts, n, thread);
    if i.Some? then Some(MetadataOf(facts[i.value].response.thread.source, facts[i.value].response.mode)) else None
  }

  /** The connection of an opened thread stays initialized. */
  lemma {:induction false} OpenedOn(facts: seq<Fact>, n: nat, thread: string)
    requires n <= |facts| && OpeningAt(facts, n, thread).Some?
    ensures ConnectionAt(facts, n, facts[OpeningAt(facts, n, thread).value].connectionId).Some?
  {
    var i := OpeningAt(facts, n, thread).value;
    var k := Latest(0, i, Initializing(facts, facts[i].connectionId));
    assert Initializing(facts, facts[i].connectionId)(k.value);
  }

  // ---------- requests ----------

  predicate Asks(f: Fact, key: RequestKey) {
    f.Request? && !f.request.OtherRequest? && (f.connectionId, f.requestId) == key
  }

  predicate Answers(f: Fact, key: RequestKey) {
    match f
    case ErrorResponse(c, id, _) => (c, id) == key
    case Response(c, TurnStartAccepted(id, _)) => (c, id) == key
    case Response(c, TurnSteerAccepted(id, _)) => (c, id) == key
    case _ => false
  }

  ghost function Concerning(facts: seq<Fact>, key: RequestKey): nat -> bool {
    (i: nat) => i < |facts| && (Asks(facts[i], key) || Answers(facts[i], key))
  }

  /** The request that waits under a key: the last one, unless an answer came after it. */
  ghost function RequestAt(facts: seq<Fact>, n: nat, key: RequestKey): Option<ClientRequest>
    requires n <= |facts|
  {
    var i := Latest(0, n, Concerning(facts, key));
    if i.Some? && facts[i.value].Request? then Some(facts[i.value].request) else None
  }

  // ---------- turns ----------

  ghost predicate StartsTurn(facts: seq<Fact>, i: nat, t: string)
    requires i < |facts|
  {
    && facts[i].Response? && facts[i].response.TurnStartAccepted? && facts[i].response.turnId == t
    && var request := RequestAt(facts, i, (facts[i].connectionId, facts[i].response.requestId));
    request.Some? && request.value.TurnStart?
  }

  ghost predicate SteersTurn(facts: seq<Fact>, i: nat, t: string)
    requires i < |facts|
  {
    && facts[i].Response? && facts[i].response.TurnSteerAccepted? && facts[i].response.turnId == t
    && var request := RequestAt(facts, i, (facts[i].connectionId, facts[i].response.requestId));
    request.Some? && request.value.TurnSteer?
  }

  predicate Configures(f: Fact, t: string) {
    f.ConfigResolved? && f.config.turnId == t
  }

  predicate Completes(f: Fact, t: string) {
    f.TurnCompleted? && f.turnId == t
  }

  predicate Uses(f: Fact, t: string) {
    f.TokenUsage? && f.turnId == t
  }

  predicate Begins(f: Fact, t: string) {
    f.TurnStarted? && f.turnId == t
  }

  ghost function Starting(facts: seq<Fact>, t: string): nat -> bool {
    (i: nat) => i < |facts| && StartsTurn(facts, i, t)
  }

  ghost function Configuring(facts: seq<Fact>, t: string): nat -> bool {
    (i: nat) => i < |facts| && Configures(facts[i], t)
  }

  ghost function Completing(facts: seq<Fact>, t: string): nat -> bool {
    (i: nat) => i < |facts| && Completes(facts[i], t)
  }

  ghost function Using(facts: seq<Fact>, t: string): nat -> bool {
    (i: nat) => i < |facts| && Uses(facts[i], t)
  }

  ghost function Beginning(facts: seq<Fact>, t: string): nat -> bool {
    (i: nat) => i < |facts| && Begins(facts[i], t)
  }

  /** The facts that say how many images a turn has. */
  ghost function Imaging(facts: seq<Fact>, t: string): nat -> bool {
    (i: nat) => i < |facts| && (StartsTurn(facts, i, t) || Configures(facts[i], t))
  }

  /** The facts that say which thread a turn is on. */
  ghost function Naming(facts: seq<Fact>, t: string): nat -> bool {
    (i: nat) => i < |facts| && (StartsTurn(facts, i, t) || Configures(facts[i], t) || Uses(facts[i], t))
  }

  ghost predicate Touches(facts: seq<Fact>, i: nat, t: string)
    requires i < |facts|
  {
    || StartsTurn(facts, i, t) || Configures(facts[i], t) || Uses(facts[i], t) || Completes(facts[i], t)
    || Begins(facts[i], t)
  }

  ghost function Touching(facts: seq<Fact>, t: string): nat -> bool {
    (i: nat) => i < |facts| && Touches(facts, i, t)
  }

  /** The steers that found the turn. */
  ghost function Steering(facts: seq<Fact>, from: nat, t: string): nat -> bool {
    (i: nat) => i < |facts| && SteersTurn(facts, i, t) && Latest(from, i, Touching(facts, t)).Some?
  }

  /** The request that a response answers. */
  ghost function AnsweredBy(facts: seq<Fact>, i: nat): Option<ClientRequest>
    requires i < |facts| && facts[i].Response?
    requires facts[i].response.TurnStartAccepted? || facts[i].response.TurnSteerAccepted?
  {
    RequestAt(facts, i, (facts[i].connectionId, facts[i].response.requestId))
  }

  ghost function ImagesFrom(facts: seq<Fact>, i: nat, t: string): nat
    requires i < |facts| && (StartsTurn(facts, i, t) || Configures(facts[i], t))
  {
    if facts[i].ConfigResolved? then facts[i].config.numInputImages else AnsweredBy(facts, i).value.numInputImages
  }

  ghost function ThreadFrom(facts: seq<Fact>, i: nat, t: string): string
    requires i < |facts| && (StartsTurn(facts, i, t) || Configures(facts[i], t) || Uses(facts[i], t))
  {
    if facts[i].ConfigResolved? then facts[i].config.threadId
    else if facts[i].TokenUsage? then facts[i].threadId
    else AnsweredBy(facts, i).value.threadId
  }

  /** What is known of a turn from the facts between two positions: of each kind the last one counts. */
  ghost function Gathered(facts: seq<Fact>, from: nat, n: nat, t: string): TurnState
    requires n <= |facts|
  {
    var start, config := Latest(from, n, Starting(facts, t)), Latest(from, n, Configuring(facts, t));
    var done, usage := Latest(from, n, Completing(facts, t)), Latest(from, n, Using(facts, t));
    var begun := Latest(from, n, Beginning(facts, t));
    var named, imaged := Latest(from, n, Naming(facts, t)), Latest(from, n, Imaging(facts, t));
    TurnState(
      if start.Some? then Some(facts[start.value].connectionId) else None,
      if named.Some? then Some(ThreadFrom(facts, named.value, t)) else None,
      if imaged.Some? then Some(ImagesFrom(facts, imaged.value, t)) else None,
      if config.Some? then Some(facts[config.value].config) else None,
      if begun.Some? then Unsigned(facts[begun.value].startedAt) else None,
      if usage.Some? then Some(facts[usage.value].usage) else None,
      if done.Some? then Some(CompletionOf(facts[done.value])) else None,
      HowMany(from, n, Steering(facts, from, t)))
  }

  /** The report of a turn from the facts up to position `n`. */
  ghost function ReportAt(facts: seq<Fact>, from: nat, n: nat, t: string): Option<Event>
    requires n < |facts|
  {
    var turn := Gathered(facts, from, n + 1, t);
    if turn.threadId.None? || turn.numInputImages.None? || turn.resolvedConfig.None? || turn.completed.None?
       || turn.connectionId.None? then None
    else
      var connection := ConnectionAt(facts, n, turn.connectionId.value);
      var metadata := MetadataAt(facts, n, turn.threadId.value);
      if connection.None? || metadata.None? then None
      else
        Some(TurnEvent(t, turn.threadId.value, connection.value, metadata.value, turn.numInputImages.value,
                       turn.resolvedConfig.value, turn.completed.value, turn.startedAt, turn.tokenUsage,
                       turn.steerCount))
  }

  /** A turn is reported by the fact with which all is known that a report needs; its start time is not. */
  ghost predicate Ends(facts: seq<Fact>, n: nat, t: string)
    requires n < |facts|
    decreases n, 1
  {
    Touches(facts, n, t) && !Begins(facts[n], t) && ReportAt(facts, Since(facts, n, t), n, t).Some?
  }

  /** The facts about a turn count from its last report on. */
  ghost function Since(facts: seq<Fact>, n: nat, t: string): (r: nat)
    requires n <= |facts|
    ensures r <= n
    decreases n, 0
  {
    if n == 0 then 0 else if Ends(facts, n - 1, t) then n else Since(facts, n - 1, t)
  }

  ghost function TurnAt(facts: seq<Fact>, n: nat, t: string): Option<TurnState>
    requires n <= |facts|
  {
    var from := Since(facts, n, t);
    if Latest(from, n, Touching(facts, t)).Some? then Some(Gathered(facts, from, n, t)) else None
  }

  // ---------- events ----------

  /** The turn that a fact may complete. */
  function TurnOfFact(f: Fact): Option<string> {
    match f
    case ConfigResolved(config) => Some(config.turnId)
    case TurnCompleted(t, _, _, _, _) => Some(t)
    case TokenUsage(t, _, _) => Some(t)
    case Response(_, TurnStartAccepted(_, t)) => Some(t)
    case _ => None
  }

  ghost function SteerTold(
    facts: seq<Fact>, n: nat, key: RequestKey, accepted: Option<string>, reason: Option<string>): seq<Event>
    requires n < |facts|
  {
    var request := RequestAt(facts, n, key);
    if request.None? || !request.value.TurnSteer? then []
    else
      var connection, metadata := ConnectionAt(facts, n, key.0), MetadataAt(facts, n, request.value.threadId);
      if connection.None? || metadata.None? then []
      else
        [SteerEvent(request.value.threadId, request.value.expectedTurnId, accepted, connection.value, metadata.value,
                    request.value.numInputImages, reason, request.value.createdAt)]
  }

  /** What fact number `n` makes the reducer report. */
  ghost function Told(facts: seq<Fact>, n: nat): seq<Event>
    requires n < |facts|
  {
    match facts[n]
    case Response(c, TurnSteerAccepted(id, t)) => SteerTold(facts, n, (c, id), Some(t), None)
    case ErrorResponse(c, id, reason) => SteerTold(facts, n, (c, id), None, reason)
    case Response(c, ThreadOpened(thread, mode)) =>
      var connection := ConnectionAt(facts, n, c);
      if connection.None? then []
      else
        [ThreadInitialized(thread.id, connection.value, thread.model, MetadataOf(thread.source, mode),
                           Unsigned(Some(thread.createdAt)).UnwrapOr(0))]
    case Compaction(thread, payload) =>
      var c := ThreadConnectionAt(facts, n, thread);
      if c.None? then []
      else
        OpenedOn(facts, n, thread);
        [CompactionEvent(payload, ConnectionAt(facts, n, c.value).value, MetadataAt(facts, n, thread).value)]
    case GuardianReview(thread, payload) =>
      var c := ThreadConnectionAt(facts, n, thread);
      if c.None? then []
      else
        OpenedOn(facts, n, thread);
        [GuardianEvent(payload, ConnectionAt(facts, n, c.value).value)]
    case Stateless(payloads) => seq(|payloads|, i requires 0 <= i < |payloads| => StatelessEvent(payloads[i]))
    case _ =>
      var t := TurnOfFact(facts[n]);
      if t.Some? && Ends(facts, n, t.value) then [ReportAt(facts, Since(facts, n, t.value), n, t.value).value] else []
  }

  ghost function AllTold(facts: seq<Fact>, n: nat): seq<Event>
    requires n <= |facts|
  {
    if n == 0 then [] else AllTold(facts, n - 1) + Told(facts, n - 1)
  }

  // ---------- the state is what the facts say ----------

  ghost function StateAt(facts: seq<Fact>, n: nat): State
    requires n <= |facts|
  {
    After(EMPTY, facts[..n])
  }

  lemma {:induction false} NextState(facts: seq<Fact>, n: nat)
    requires n < |facts|
    ensures StateAt(facts, n + 1) == Step(StateAt(facts, n), facts[n]).state
  {
    hide Step;
    assert facts[..n + 1][..n] == facts[..n];
  }

  lemma {:induction false} StepConnections(s: State, f: Fact)
    ensures Step(s, f).state.connections ==
            if f.Initialize? then s.connections[f.connectionId := f.connection] else s.connections
  {}

  lemma {:induction false} ConnectionsTold(facts: seq<Fact>, n: nat, c: ConnectionId)
    requires n <= |facts|
    ensures At(StateAt(facts, n).connections, c) == ConnectionAt(facts, n, c)
  {
    if n > 0 {
      ConnectionsTold(facts, n - 1, c);
      NextState(facts, n - 1);
      StepConnections(StateAt(facts, n - 1), facts[n - 1]);
    }
  }

  ghost predicate ThreadMoves(s: State, f: Fact, s': State) {
    if f.Response? && f.response.ThreadOpened? && f.connectionId in s.connections then
      var thread := f.response.thread;
      && s'.threadConnections == s.threadConnections[thread.id := f.connectionId]
      && s'.threadMetadata == s.threadMetadata[thread.id := MetadataOf(thread.source, f.response.mode)]
    else s'.threadConnections == s.threadConnections && s'.threadMetadata == s.threadMetadata
  }

  lemma {:induction false} RespondThreads(s: State, c: ConnectionId, response: ClientResponse)
    ensures ThreadMoves(s, Response(c, response), Respond(s, c, response).state)
  {
    hide Complete, Steered, MetadataOf;
  }

  lemma {:induction false} StepThreads(s: State, f: Fact)
    ensures ThreadMoves(s, f, Step(s, f).state)
  {
    hide Complete, Steered, Respond;
    if f.Response? {
      RespondThreads(s, f.connectionId, f.response);
    }
  }

  lemma {:induction false} ThreadsTold(facts: seq<Fact>, n: nat, thread: string)
    requires n <= |facts|
    ensures At(StateAt(facts, n).threadConnections, thread) == ThreadConnectionAt(facts, n, thread)
    ensures At(StateAt(facts, n).threadMetadata, thread) == MetadataAt(facts, n, thread)
  {
    hide Step, MetadataOf, ConnectionAt;
    if n > 0 {
      var f := facts[n - 1];
      ThreadsTold(facts, n - 1, thread);
      NextState(facts, n - 1);
      StepThreads(StateAt(facts, n - 1), f);
      if f.Response? {
        ConnectionsTold(facts, n - 1, f.connectionId);
      }
      assert Opening(facts, thread)(n - 1) <==> Opens(facts, n - 1, thread);
    }
  }

  /** What the reducer keeps of a request. */
  predicate Keeps(pending: Option<Pending>, request: Option<ClientRequest>) {
    match request
    case None => pending == None
    case Some(TurnStart(thread, images)) =>
      pending.Some? && pending.value.PendingStart? && pending.value.threadId == thread
      && pending.value.numInputImages == images
    case Some(TurnSteer(thread, expected, images, at)) =>
      pending.Some? && pending.value.PendingSteer? && pending.value.threadId == thread
      && pending.value.expectedTurnId == expected && pending.value.numInputImages == images
      && pending.value.createdAt == at
    case _ => false
  }

  ghost predicate RequestMoves(s: State, f: Fact, key: RequestKey, s': State) {
    var pending := At(s'.requests, key);
    if Asks(f, key) then Keeps(pending, Some(f.request))
    else if Answers(f, key) then pending == None
    else pending == At(s.requests, key)
  }

  lemma {:induction false} RespondRequests(s: State, c: ConnectionId, response: ClientResponse, key: RequestKey)
    ensures RequestMoves(s, Response(c, response), key, Respond(s, c, response).state)
  {
    hide Complete, Steered, MetadataOf, TurnOf;
  }

  lemma {:induction false} StepRequests(s: State, f: Fact, key: RequestKey)
    ensures RequestMoves(s, f, key, Step(s, f).state)
  {
    hide Complete, Steered, Respond;
    if f.Response? {
      RespondRequests(s, f.connectionId, f.response, key);
    }
  }

  lemma {:induction false} RequestsTold(facts: seq<Fact>, n: nat, key: RequestKey)
    requires n <= |facts|
    ensures Keeps(At(StateAt(facts, n).requests, key), RequestAt(facts, n, key))
  {
    if n > 0 {
      RequestsTold(facts, n - 1, key);
      NextState(facts, n - 1);
      StepRequests(StateAt(facts, n - 1), facts[n - 1], key);
      assert Concerning(facts, key)(n - 1) <==> Asks(facts[n - 1], key) || Answers(facts[n - 1], key);
    }
  }

  // ---------- the turns are what the facts say ----------

  /** What one more fact puts into a turn. */
  ghost function Put(facts: seq<Fact>, n: nat, t: string, turn: TurnState): TurnState
    requires n < |facts| && Touches(facts, n, t)
  {
    match facts[n]
    case Response(c, _) =>
      turn.(connectionId := Some(c), threadId := Some(ThreadFrom(facts, n, t)),
            numInputImages := Some(ImagesFrom(facts, n, t)))
    case ConfigResolved(config) =>
      turn.(threadId := Some(config.threadId), numInputImages := Some(config.numInputImages),
            resolvedConfig := Some(config))
    case TokenUsage(_, thread, usage) => turn.(threadId := Some(thread), tokenUsage := Some(usage))
    case TurnStarted(_, at) => turn.(startedAt := Unsigned(at))
    case _ => turn.(completed := Some(CompletionOf(facts[n])))
  }

  /** What is known of a turn between two positions, if anything is. */
  ghost function Known(facts: seq<Fact>, from: nat, n: nat, t: string): Option<TurnState>
    requires n <= |facts|
  {
    if Latest(from, n, Touching(facts, t)).Some? then Some(Gathered(facts, from, n, t)) else None
  }

  lemma {:induction false} NothingSteered(facts: seq<Fact>, from: nat, n: nat, t: string)
    requires n <= |facts| && Latest(from, n, Touching(facts, t)).None?
    ensures HowMany(from, n, Steering(facts, from, t)) == 0
  {
    if from < n {
      NothingSteered(facts, from, n - 1, t);
      assert !Steering(facts, from, t)(n - 1);
    }
  }

  lemma {:induction false} NothingKnown(facts: seq<Fact>, from: nat, n: nat, t: string)
    requires n <= |facts| && Latest(from, n, Touching(facts, t)).None?
    ensures Gathered(facts, from, n, t) == EMPTY_TURN
  {
    NothingSteered(facts, from, n, t);
    forall i: nat | from <= i < n
      ensures !Starting(facts, t)(i) && !Configuring(facts, t)(i) && !Completing(facts, t)(i) && !Using(facts, t)(i)
      ensures !Beginning(facts, t)(i) && !Naming(facts, t)(i) && !Imaging(facts, t)(i)
    {
      assert !Touching(facts, t)(i);
    }
  }

  lemma {:induction false} NextGathered(facts: seq<Fact>, from: nat, n: nat, t: string)
    requires from <= n < |facts|
    ensures
      var turn, f := Gathered(facts, from, n, t), facts[n];
      var starts := StartsTurn(facts, n, t);
      Gathered(facts, from, n + 1, t) == TurnState(
        if starts then Some(f.connectionId) else turn.connectionId,
        if starts || Configures(f, t) || Uses(f, t) then Some(ThreadFrom(facts, n, t)) else turn.threadId,
        if starts || Configures(f, t) then Some(ImagesFrom(facts, n, t)) else turn.numInputImages,
        if Configures(f, t) then Some(f.config) else turn.resolvedConfig,
        if Begins(f, t) then Unsigned(f.startedAt) else turn.startedAt,
        if Uses(f, t) then Some(f.usage) else turn.tokenUsage,
        if Completes(f, t) then Some(CompletionOf(f)) else turn.completed,
        turn.steerCount +
          if SteersTurn(facts, n, t) && Latest(from, n, Touching(facts, t)).Some? then 1 else 0)
  {
    hide StartsTurn, SteersTurn, ThreadFrom, ImagesFrom, Touches;
    assert Starting(facts, t)(n) <==> StartsTurn(facts, n, t);
    assert Steering(facts, from, t)(n) <==> SteersTurn(facts, n, t) && Latest(from, n, Touching(facts, t)).Some?;
  }

  lemma {:induction false} NextKnown(facts: seq<Fact>, from: nat, n: nat, t: string)
    requires from <= n < |facts|
    ensures
      var known := Known(facts, from, n, t);
      Known(facts, from, n + 1, t) ==
      if Touches(facts, n, t) then Some(Put(facts, n, t, known.UnwrapOr(EMPTY_TURN)))
      else if SteersTurn(facts, n, t) && known.Some?
      then Some(known.value.(steerCount := known.value.steerCount + 1)) else known
  {
    NextGathered(facts, from, n, t);
    if Latest(from, n, Touching(facts, t)).None? {
      NothingKnown(facts, from, n, t);
    }
    hide Gathered;
    assert Touching(facts, t)(n) <==> Touches(facts, n, t);
  }

  /** A turn is stored, and reported if that completes it; its start time does not. */
  ghost predicate Stores(s: State, f: Fact, t: string, turn: TurnState, o: Outcome) {
    exists stored: State ::
      && stored.turns == s.turns[t := turn] && stored.connections == s.connections
      && stored.threadMetadata == s.threadMetadata
      && o == if Begins(f, t) then Outcome(stored, []) else MaybeEmit(stored, t)
  }

  lemma {:induction false} TouchStores(facts: seq<Fact>, n: nat, t: string)
    requires n < |facts| && Touches(facts, n, t)
    ensures var s := StateAt(facts, n);
            Stores(s, facts[n], t, Put(facts, n, t, TurnOf(s, t)), Step(s, facts[n]))
  {
    hide StateAt, MaybeEmit, RequestAt;
    var s, f := StateAt(facts, n), facts[n];
    var turn := Put(facts, n, t, TurnOf(s, t));
    if f.Response? {
      var key := (f.connectionId, f.response.requestId);
      RequestsTold(facts, n, key);
      var stored := WithTurn(s.(requests := s.requests - {key}), t, turn);
      assert Step(s, f) == MaybeEmit(stored, t);
    } else {
      var stored := WithTurn(s, t, turn);
      assert Step(s, f) == if Begins(f, t) then Outcome(stored, []) else MaybeEmit(stored, t);
    }
  }

  lemma {:induction false} NoTouchMoves(facts: seq<Fact>, n: nat, t: string)
    requires n < |facts| && !Touches(facts, n, t)
    ensures
      var s := StateAt(facts, n);
      var turn := At(s.turns, t);
      At(Step(s, facts[n]).state.turns, t) ==
      if SteersTurn(facts, n, t) && turn.Some? then Some(turn.value.(steerCount := turn.value.steerCount + 1)) else turn
  {
    hide StateAt, Complete, RequestAt, Steered;
    var s, f := StateAt(facts, n), facts[n];
    if f.Response? && (f.response.TurnStartAccepted? || f.response.TurnSteerAccepted?) {
      RequestsTold(facts, n, (f.connectionId, f.response.requestId));
    }
  }

  /** What a stored turn reports. */
  lemma {:induction false} StoredReports(facts: seq<Fact>, from: nat, n: nat, t: string, stored: State)
    requires n < |facts| && At(stored.turns, t) == Some(Gathered(facts, from, n + 1, t))
    requires stored.connections == StateAt(facts, n).connections
    requires stored.threadMetadata == StateAt(facts, n).threadMetadata
    ensures
      var report := ReportAt(facts, from, n, t);
      && At(MaybeEmit(stored, t).state.turns, t) == (if report.Some? then None else At(stored.turns, t))
      && MaybeEmit(stored, t).events == if report.Some? then [report.value] else []
  {
    hide StateAt, Gathered, ConnectionAt, MetadataAt;
    var turn := Gathered(facts, from, n + 1, t);
    if turn.connectionId.Some? {
      ConnectionsTold(facts, n, turn.connectionId.value);
    }
    if turn.threadId.Some? {
      ThreadsTold(facts, n, turn.threadId.value);
    }
  }

  /** One fact takes a turn from what was known of it to what is known now, and reports it when it ends it. */
  lemma {:induction false} TurnStep(facts: seq<Fact>, n: nat, t: string)
    requires n < |facts| && At(StateAt(facts, n).turns, t) == TurnAt(facts, n, t)
    ensures At(StateAt(facts, n + 1).turns, t) == TurnAt(facts, n + 1, t)
    ensures Touches(facts, n, t) ==>
      Step(StateAt(facts, n), facts[n]).events ==
      if Ends(facts, n, t) then [ReportAt(facts, Since(facts, n, t), n, t).value] else []
  {
    hide StateAt, Gathered, Step, MaybeEmit, Put, ReportAt, StartsTurn, SteersTurn;
    var s, from := StateAt(facts, n), Since(facts, n, t);
    NextState(facts, n);
    NextKnown(facts, from, n, t);
    if Touches(facts, n, t) {
      TouchStores(facts, n, t);
      var turn := Put(facts, n, t, TurnOf(s, t));
      var o := Step(s, facts[n]);
      var stored: State :|
        && stored.turns == s.turns[t := turn] && stored.connections == s.connections
        && stored.threadMetadata == s.threadMetadata
        && o == if Begins(facts[n], t) then Outcome(stored, []) else MaybeEmit(stored, t);
      StoredReports(facts, from, n, t, stored);
      assert Ends(facts, n, t) <==> !Begins(facts[n], t) && ReportAt(facts, from, n, t).Some?;
      assert Since(facts, n + 1, t) == if Ends(facts, n, t) then n + 1 else from;
      assert !Ends(facts, n, t) ==> TurnAt(facts, n + 1, t) == Known(facts, from, n + 1, t);
    } else {
      NoTouchMoves(facts, n, t);
      assert !Ends(facts, n, t) && Since(facts, n + 1, t) == from;
      assert TurnAt(facts, n + 1, t) == Known(facts, from, n + 1, t);
      assert TurnAt(facts, n, t) == Known(facts, from, n, t);
    }
  }

  lemma {:induction false} TurnsTold(facts: seq<Fact>, n: nat, t: string)
    requires n <= |facts|
    ensures At(StateAt(facts, n).turns, t) == TurnAt(facts, n, t)
  {
    if n > 0 {
      TurnsTold(facts, n - 1, t);
      TurnStep(facts, n - 1, t);
    }
  }

  // ---------- the events are what the facts say ----------

  lemma {:induction false} SteersTold(
    facts: seq<Fact>, n: nat, key: RequestKey, accepted: Option<string>, reason: Option<string>)
    requires n < |facts|
    ensures
      var s := StateAt(facts, n);
      SteerTold(facts, n, key, accepted, reason) ==
      if key in s.requests && s.requests[key].PendingSteer? then Steered(s, key.0, s.requests[key], accepted, reason)
      else []
  {
    hide StateAt, RequestAt, ConnectionAt, MetadataAt;
    RequestsTold(facts, n, key);
    ConnectionsTold(facts, n, key.0);
    var request := RequestAt(facts, n, key);
    if request.Some? && request.value.TurnSteer? {
      ThreadsTold(facts, n, request.value.threadId);
    }
  }

  lemma {:induction false} ThreadEventsTold(facts: seq<Fact>, n: nat, thread: string)
    requires n < |facts|
    ensures
      var s, c := StateAt(facts, n), ThreadConnectionAt(facts, n, thread);
      && (c.Some? <==> KnownThread(s, thread) && thread in s.threadMetadata)
      && (c.Some? <==> KnownThread(s, thread))
      && (c.Some? ==>
            && Some(s.connections[s.threadConnections[thread]]) == ConnectionAt(facts, n, c.value)
            && Some(s.threadMetadata[thread]) == MetadataAt(facts, n, thread))
  {
    hide StateAt, ConnectionAt;
    ThreadsTold(facts, n, thread);
    if OpeningAt(facts, n, thread).Some? {
      OpenedOn(facts, n, thread);
      ConnectionsTold(facts, n, ThreadConnectionAt(facts, n, thread).value);
    }
  }

  lemma {:induction false} TurnFactIsTold(facts: seq<Fact>, n: nat)
    requires n < |facts| && TurnOfFact(facts[n]).Some?
    ensures Step(StateAt(facts, n), facts[n]).events == Told(facts, n)
  {
    hide StateAt, Step, Ends, ReportAt, Since, TurnAt, SteerTold, ConnectionAt, MetadataAt, ThreadConnectionAt;
    hide StartsTurn;
    var t := TurnOfFact(facts[n]).value;
    TurnsTold(facts, n, t);
    TurnStep(facts, n, t);
    TurnFactTouches(facts, n);
  }

  lemma {:induction false} SteerFactIsTold(facts: seq<Fact>, n: nat)
    requires n < |facts| && (facts[n].ErrorResponse? || (facts[n].Response? && facts[n].response.TurnSteerAccepted?))
    ensures Step(StateAt(facts, n), facts[n]).events == Told(facts, n)
  {
    hide StateAt, SteerTold, Steered;
    match facts[n] {
      case ErrorResponse(c, id, reason) => SteersTold(facts, n, (c, id), None, reason);
      case Response(c, TurnSteerAccepted(id, t)) => SteersTold(facts, n, (c, id), Some(t), None);
    }
  }

  /** Every fact is reported as the facts before it say. */
  lemma {:induction false} FactIsTold(facts: seq<Fact>, n: nat)
    requires n < |facts|
    ensures Step(StateAt(facts, n), facts[n]).events == Told(facts, n)
  {
    var f := facts[n];
    hide StateAt, ConnectionAt, MetadataAt, ThreadConnectionAt, SteerTold, AcceptStart, AcceptSteer, RefuseRequest,
      Told;
    if TurnOfFact(f).Some? {
      TurnFactIsTold(facts, n);
    } else if f.ErrorResponse? || (f.Response? && f.response.TurnSteerAccepted?) {
      SteerFactIsTold(facts, n);
    } else {
      OtherFactIsTold(facts, n);
    }
  }

  lemma {:induction false} OtherFactIsTold(facts: seq<Fact>, n: nat)
    requires n < |facts| && TurnOfFact(facts[n]).None? && !facts[n].ErrorResponse?
    requires facts[n].Response? ==> !facts[n].response.TurnSteerAccepted?
    ensures Step(StateAt(facts, n), facts[n]).events == Told(facts, n)
  {
    hide StateAt, ConnectionAt, MetadataAt, ThreadConnectionAt;
    match facts[n] {
      case Response(c, ThreadOpened(_, _)) => ConnectionsTold(facts, n, c);
      case Compaction(thread, _) => ThreadEventsTold(facts, n, thread);
      case GuardianReview(thread, _) => ThreadEventsTold(facts, n, thread);
      case _ =>
    }
  }

  /** A fact about a turn touches it, except for the acceptance of a start that nobody asked for. */
  lemma {:induction false} TurnFactTouches(facts: seq<Fact>, n: nat)
    requires n < |facts| && TurnOfFact(facts[n]).Some?
    ensures
      var t := TurnOfFact(facts[n]).value;
      !Touches(facts, n, t) ==> Step(StateAt(facts, n), facts[n]).events == [] && !Ends(facts, n, t)
  {
    hide StateAt, MaybeEmit;
    if facts[n].Response? {
      RequestsTold(facts, n, (facts[n].connectionId, facts[n].response.requestId));
    }
  }

  /** A run reports what its facts say, fact by fact and in their order. */
  lemma {:induction false} RunIsTold(facts: seq<Fact>, n: nat)
    requires n <= |facts|
    ensures Events(EMPTY, facts[..n]) == AllTold(facts, n)
  {
    if n > 0 {
      RunIsTold(facts, n - 1);
      FactIsTold(facts, n - 1);
      assert facts[..n][..n - 1] == facts[..n - 1];
    }
  }

  // ---------- steers ----------

  /** Fact number `i` asks for a steer, and fact number `n` is the first word on it since: a verdict. */
  ghost predicate SteerSettled(facts: seq<Fact>, i: nat, n: nat)
    requires i < |facts| && n < |facts|
  {
    && i < n && facts[i].Request? && facts[i].request.TurnSteer?
    && var key := (facts[i].connectionId, facts[i].requestId);
    && (forall j :: i < j < n ==> !Asks(facts[j], key) && !Answers(facts[j], key))
    && Answers(facts[n], key) && (facts[n].Response? ==> facts[n].response.TurnSteerAccepted?)
  }

  /** The event says what was asked for, and what became of it. */
  ghost predicate SteerSays(e: Event, asked: Fact, verdict: Fact)
    requires asked.Request? && asked.request.TurnSteer?
  {
    && e.SteerEvent? && e.threadId == asked.request.threadId && e.expectedTurnId == asked.request.expectedTurnId
    && e.numInputImages == asked.request.numInputImages && e.createdAt == asked.request.createdAt
    && match verdict
       case Response(_, TurnSteerAccepted(_, t)) => e.acceptedTurnId == Some(t) && e.reason == None
       case ErrorResponse(_, _, reason) => e.acceptedTurnId == None && e.reason == reason
       case _ => false
  }

  /** The connection of a request is initialized, and its thread is opened, before fact number `n`. */
  ghost predicate Placed(facts: seq<Fact>, n: nat, asked: Fact)
    requires n <= |facts| && asked.Request? && asked.request.TurnSteer?
  {
    ConnectionAt(facts, n, asked.connectionId).Some? && MetadataAt(facts, n, asked.request.threadId).Some?
  }

  lemma {:induction false} SettledIsPending(facts: seq<Fact>, i: nat, n: nat)
    requires i < |facts| && n < |facts| && SteerSettled(facts, i, n)
    ensures RequestAt(facts, n, (facts[i].connectionId, facts[i].requestId)) == Some(facts[i].request)
  {
    var key := (facts[i].connectionId, facts[i].requestId);
    var k := Latest(0, n, Concerning(facts, key));
    assert Concerning(facts, key)(i);
    assert k.Some? && Concerning(facts, key)(k.value);
  }

  /** A settled steer on a known connection and thread is reported once, at the verdict, and any other steer is not. */
  lemma {:induction false} SettledSteerIsReported(facts: seq<Fact>, i: nat, n: nat)
    requires i < |facts| && n < |facts| && SteerSettled(facts, i, n)
    ensures
      var events := Step(StateAt(facts, n), facts[n]).events;
      if Placed(facts, n, facts[i]) then
        && |events| == 1 && SteerSays(events[0], facts[i], facts[n])
        && Some(events[0].connection) == ConnectionAt(facts, n, facts[i].connectionId)
        && Some(events[0].metadata) == MetadataAt(facts, n, facts[i].request.threadId)
      else events == []
  {
    FactIsTold(facts, n);
    SettledIsPending(facts, i, n);
  }

  lemma {:induction false} ReportedSteerWasSettled(facts: seq<Fact>, n: nat, e: Event)
    requires n < |facts| && e in Step(StateAt(facts, n), facts[n]).events && e.SteerEvent?
    ensures exists i: nat ::
      i < |facts| && SteerSettled(facts, i, n) && Placed(facts, n, facts[i]) && SteerSays(e, facts[i], facts[n])
  {
    FactIsTold(facts, n);
    hide Step, StateAt, ReportAt;
    var f := facts[n];
    assert f.ErrorResponse? || (f.Response? && f.response.TurnSteerAccepted?);
    var key := if f.Response? then (f.connectionId, f.response.requestId) else (f.connectionId, f.requestId);
    assert RequestAt(facts, n, key).Some? && RequestAt(facts, n, key).value.TurnSteer?;
    var i := Latest(0, n, Concerning(facts, key)).value;
    assert Concerning(facts, key)(i);
    forall j | i < j < n ensures !Asks(facts[j], key) && !Answers(facts[j], key) {
      assert !Concerning(facts, key)(j);
    }
    assert SteerSettled(facts, i, n);
  }

  // ---------- the values that a report carries ----------

  /** Times and durations that a `u64` cannot hold are left out; a completion and a thread then say zero. */
  lemma {:induction false} UnsignedMeans(n: Option<int>, v: nat)
    ensures Unsigned(n) == Some(v) <==> n == Some(v) && v < 0x1_0000_0000_0000_0000
  {}

  lemma {:induction false} CompletionMeans(f: Fact)
    requires f.TurnCompleted?
    ensures
      var completion := CompletionOf(f);
      && completion.status == f.status && completion.error == f.error
      && (forall v: nat :: completion.durationMs == Some(v) <==> f.durationMs == Some(v) && v < 0x1_0000_0000_0000_0000)
      && (f.completedAt == Some(completion.completedAt) || completion.completedAt == 0)
      && (f.completedAt.Some? && 0 <= f.completedAt.value < 0x1_0000_0000_0000_0000 ==>
            completion.completedAt == f.completedAt.value)
  {}

  /** A sub-agent names itself and its parent thread; any other source is taken as it is. */
  lemma {:induction false} MetadataMeans(source: SessionSource, mode: InitializationMode, m: ThreadMetadata)
    ensures m == MetadataOf(source, mode) <==>
      && m.mode == mode && (source.SubAgent? <==> m.subagentSource.Some?)
      && (source.SubAgent? ==>
            m.source == Some("subagent") && m.subagentSource == Some(source.name)
            && m.parentThreadId == source.parentThreadId)
      && (source.Direct? ==> m.source == source.source && m.parentThreadId == None)
  {}
}
