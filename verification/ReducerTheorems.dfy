/** What holds of every run of the analytics reducer (`analytics/src/reducer.rs`). */
module ReducerTheorems {
  import opened Basics
  import opened Reducer

  // ---------- threads and connections ----------

  /** Both thread maps know the same threads, and each on an initialized connection. */
  ghost predicate ThreadsConnected(s: State) {
    && s.threadConnections.Keys == s.threadMetadata.Keys
    && forall thread :: thread in s.threadConnections ==> s.threadConnections[thread] in s.connections
  }

  lemma {:induction false} RespondKeepsThreads(s: State, c: ConnectionId, response: ClientResponse)
    requires ThreadsConnected(s)
    ensures ThreadsConnected(Respond(s, c, response).state)
  {
    hide Complete;
  }

  lemma {:induction false} StepKeepsThreads(s: State, f: Fact)
    requires ThreadsConnected(s)
    ensures ThreadsConnected(Step(s, f).state)
  {
    hide Complete, Respond;
    if f.Response? {
      RespondKeepsThreads(s, f.connectionId, f.response);
    }
  }

  lemma {:induction false} RunKeepsThreads(s: State, facts: seq<Fact>)
    requires ThreadsConnected(s)
    ensures ThreadsConnected(After(s, facts))
  {
    if facts != [] {
      RunKeepsThreads(s, facts[..|facts| - 1]);
      StepKeepsThreads(After(s, facts[..|facts| - 1]), facts[|facts| - 1]);
    }
  }

  /**
   After any run, a thread with a connection has metadata and its connection is known: compaction and guardian
   events are dropped only for threads that were never initialized.
   */
  lemma {:induction false} NoEventIsDroppedForAKnownThread(facts: seq<Fact>, thread: string, payload: string)
    ensures
      var s := After(EMPTY, facts);
      && (thread in s.threadConnections <==> thread in s.threadMetadata)
      && (thread in s.threadConnections <==> |Step(s, Compaction(thread, payload)).events| == 1)
      && (thread in s.threadConnections <==> |Step(s, GuardianReview(thread, payload)).events| == 1)
  {
    RunKeepsThreads(EMPTY, facts);
  }

  // ---------- counting ----------

  function Bit(b: bool): nat {
    if b then 1 else 0
  }

  predicate Reports(e: Event, t: string) {
    e.TurnEvent? && e.turnId == t
  }

  /** How often a turn was reported, and the steers those reports count. */
  function Reported(events: seq<Event>, t: string): nat {
    if events == [] then 0 else Reported(events[..|events| - 1], t) + Bit(Reports(events[|events| - 1], t))
  }

  function SteersReported(events: seq<Event>, t: string): nat {
    if events == [] then 0
    else
      SteersReported(events[..|events| - 1], t) +
      if Reports(events[|events| - 1], t) then events[|events| - 1].steerCount else 0
  }

  lemma {:induction false} ReportedSplit(a: seq<Event>, b: seq<Event>, t: string)
    ensures Reported(a + b, t) == Reported(a, t) + Reported(b, t)
    ensures SteersReported(a + b, t) == SteersReported(a, t) + SteersReported(b, t)
  {
    if b == [] {
      assert a + b == a;
    } else {
      ReportedSplit(a, b[..|b| - 1], t);
      assert (a + b)[..|a + b| - 1] == a + b[..|b| - 1];
    }
  }

  lemma {:induction false} NothingReported(events: seq<Event>, t: string)
    requires forall i :: 0 <= i < |events| ==> !Reports(events[i], t)
    ensures Reported(events, t) == 0 && SteersReported(events, t) == 0
  {
    if events != [] {
      NothingReported(events[..|events| - 1], t);
    }
  }

  lemma {:induction false} ReportedOne(e: Event, t: string)
    ensures Reported([e], t) == Bit(Reports(e, t))
    ensures SteersReported([e], t) == if Reports(e, t) then e.steerCount else 0
  {
    assert [e][..0] == [];
  }

  /** A response that matches a pending start of the turn. */
  predicate Starts(s: State, f: Fact, t: string) {
    && f.Response? && f.response.TurnStartAccepted? && f.response.turnId == t
    && (f.connectionId, f.response.requestId) in s.requests
    && s.requests[(f.connectionId, f.response.requestId)].PendingStart?
  }

  predicate Configures(f: Fact, t: string) {
    f.ConfigResolved? && f.config.turnId == t
  }

  predicate Completes(f: Fact, t: string) {
    f.TurnCompleted? && f.turnId == t
  }

  /** A steer that is accepted while its turn is in the map. */
  predicate Steers(s: State, f: Fact, t: string) {
    && f.Response? && f.response.TurnSteerAccepted? && f.response.turnId == t
    && (f.connectionId, f.response.requestId) in s.requests
    && s.requests[(f.connectionId, f.response.requestId)].PendingSteer?
    && t in s.turns
  }

  /** How many facts of a run satisfy a condition on the state they meet. */
  function Count(s: State, facts: seq<Fact>, holds: (State, Fact) -> bool): nat {
    if facts == [] then 0
    else
      Count(s, facts[..|facts| - 1], holds) + Bit(holds(After(s, facts[..|facts| - 1]), facts[|facts| - 1]))
  }

  /** What one outcome adds to the account of a turn. */
  ghost predicate Balanced(s: State, f: Fact, t: string, o: Outcome) {
    var before, after, n := TurnOf(s, t), TurnOf(o.state, t), Reported(o.events, t);
    && n + Bit(after.connectionId.Some?) <= Bit(before.connectionId.Some?) + Bit(Starts(s, f, t))
    && n + Bit(after.resolvedConfig.Some?) <= Bit(before.resolvedConfig.Some?) + Bit(Configures(f, t))
    && n + Bit(after.completed.Some?) <= Bit(before.completed.Some?) + Bit(Completes(f, t))
    && SteersReported(o.events, t) + after.steerCount == before.steerCount + Bit(Steers(s, f, t))
  }

  /** Reporting a turn uses up each of its parts and takes its steers along. */
  lemma {:induction false} EmitBalanced(s: State, u: string, t: string)
    ensures
      var o := MaybeEmit(s, u);
      var before, after, n := TurnOf(s, t), TurnOf(o.state, t), Reported(o.events, t);
      && n + Bit(after.connectionId.Some?) == Bit(before.connectionId.Some?)
      && n + Bit(after.resolvedConfig.Some?) == Bit(before.resolvedConfig.Some?)
      && n + Bit(after.completed.Some?) == Bit(before.completed.Some?)
      && SteersReported(o.events, t) + after.steerCount == before.steerCount
  {
    if Complete(s, u) {
      ReportedOne(TurnEventOf(s, u), t);
    } else {
      NothingReported([], t);
    }
  }

  /** A turn that gets no part, no steer and no report stays balanced. */
  lemma {:induction false} UntouchedBalanced(s: State, f: Fact, t: string, o: Outcome)
    requires TurnOf(o.state, t).(startedAt := None) == TurnOf(s, t).(startedAt := None) && !Steers(s, f, t)
    requires forall i :: 0 <= i < |o.events| ==> !Reports(o.events[i], t)
    ensures Balanced(s, f, t, o)
  {
    NothingReported(o.events, t);
  }

  lemma {:induction false} CompletedBalanced(s: State, f: Fact, t: string)
    requires f.TurnCompleted?
    ensures Balanced(s, f, t, Step(s, f))
  {
    hide MaybeEmit, Reported, SteersReported;
    EmitBalanced(WithTurn(s, f.turnId, TurnOf(s, f.turnId).(completed := Some(CompletionOf(f)))), f.turnId, t);
  }

  lemma {:induction false} ConfigBalanced(s: State, config: ResolvedConfig, t: string)
    ensures Balanced(s, ConfigResolved(config), t, Step(s, ConfigResolved(config)))
  {
    hide MaybeEmit, Reported, SteersReported;
    var u := config.turnId;
    var turn := TurnOf(s, u).(
      threadId := Some(config.threadId), numInputImages := Some(config.numInputImages), resolvedConfig := Some(config));
    EmitBalanced(WithTurn(s, u, turn), u, t);
  }

  lemma {:induction false} UsageBalanced(s: State, f: Fact, t: string)
    requires f.TokenUsage?
    ensures Balanced(s, f, t, Step(s, f))
  {
    hide MaybeEmit, Reported, SteersReported;
    var turn := TurnOf(s, f.turnId).(threadId := Some(f.threadId), tokenUsage := Some(f.usage));
    EmitBalanced(WithTurn(s, f.turnId, turn), f.turnId, t);
  }

  lemma {:induction false} StartBalanced(s: State, c: ConnectionId, id: string, u: string, t: string)
    ensures Balanced(s, Response(c, TurnStartAccepted(id, u)), t, AcceptStart(s, c, id, u))
  {
    hide MaybeEmit, Reported, SteersReported;
    var o := AcceptStart(s, c, id, u);
    if (c, id) in s.requests && s.requests[(c, id)].PendingStart? {
      var request := s.requests[(c, id)];
      var rest := s.(requests := s.requests - {(c, id)});
      var turn := TurnOf(s, u).(
        connectionId := Some(c), threadId := Some(request.threadId), numInputImages := Some(request.numInputImages));
      EmitBalanced(WithTurn(rest, u, turn), u, t);
    } else {
      UntouchedBalanced(s, Response(c, TurnStartAccepted(id, u)), t, o);
    }
  }

  lemma {:induction false} SteerBalanced(s: State, c: ConnectionId, id: string, u: string, t: string)
    ensures Balanced(s, Response(c, TurnSteerAccepted(id, u)), t, AcceptSteer(s, c, id, u))
  {
    hide MaybeEmit, Reported, SteersReported;
    NothingReported(AcceptSteer(s, c, id, u).events, t);
  }

  lemma {:induction false} StepBalanced(s: State, f: Fact, t: string)
    ensures Balanced(s, f, t, Step(s, f))
  {
    hide MaybeEmit, Balanced, AcceptStart, AcceptSteer;
    match f {
      case TurnCompleted(_, _, _, _, _) => CompletedBalanced(s, f, t);
      case ConfigResolved(config) => ConfigBalanced(s, config, t);
      case TokenUsage(_, _, _) => UsageBalanced(s, f, t);
      case Response(c, TurnStartAccepted(id, u)) => StartBalanced(s, c, id, u, t);
      case Response(c, TurnSteerAccepted(id, u)) => SteerBalanced(s, c, id, u, t);
      case _ => UntouchedBalanced(s, f, t, Step(s, f));
    }
  }

  /** The account of a turn over a run from the empty reducer. */
  ghost predicate Accounted(facts: seq<Fact>, t: string) {
    var s, events := After(EMPTY, facts), Events(EMPTY, facts);
    var turn, n := TurnOf(s, t), Reported(events, t);
    && n + Bit(turn.connectionId.Some?) <= Count(EMPTY, facts, (s, f) => Starts(s, f, t))
    && n + Bit(turn.resolvedConfig.Some?) <= Count(EMPTY, facts, (s, f) => Configures(f, t))
    && n + Bit(turn.completed.Some?) <= Count(EMPTY, facts, (s, f) => Completes(f, t))
    && SteersReported(events, t) + turn.steerCount == Count(EMPTY, facts, (s, f) => Steers(s, f, t))
  }

  /**
   In every run and for every turn: reports never exceed its matched start responses, its resolved configs or its
   completions, and the steers reported plus the live count are exactly the accepted steers that found the turn.
   */
  lemma {:induction false} EveryRunIsAccounted(facts: seq<Fact>, t: string)
    ensures Accounted(facts, t)
  {
    if facts != [] {
      var rest, f := facts[..|facts| - 1], facts[|facts| - 1];
      EveryRunIsAccounted(rest, t);
      hide Step, Starts, Configures, Completes, Steers;
      StepBalanced(After(EMPTY, rest), f, t);
      ReportedSplit(Events(EMPTY, rest), Step(After(EMPTY, rest), f).events, t);
    }
  }

  // ---------- joining the parts of a turn in any order ----------

  datatype Part = Start | Config | Done

  /** One turn: its start request is pending, its parts are to come. */
  datatype Joining = Joining(
    turnId: string, connectionId: ConnectionId, requestId: string, config: ResolvedConfig, completion: Fact,
    connection: Connection, metadata: ThreadMetadata,
    /** What token usage, a start time or steers had already put into the turn. */
    base: TurnState)
  {
    ghost predicate Valid() {
      && completion.TurnCompleted? && completion.turnId == turnId && config.turnId == turnId
      && base.connectionId.None? && base.numInputImages.None? && base.resolvedConfig.None? && base.completed.None?
    }

    function Key(): RequestKey {
      (connectionId, requestId)
    }

    /** The fact that brings a part. */
    function FactOf(p: Part): Fact {
      match p
      case Start => Response(connectionId, TurnStartAccepted(requestId, turnId))
      case Config => ConfigResolved(config)
      case Done => completion
    }

    /** The turn while `left` is still to come. */
    function TurnWithout(left: set<Part>): TurnState
      requires completion.TurnCompleted?
    {
      var named := if Start in left && Config in left then base
                   else base.(threadId := Some(config.threadId), numInputImages := Some(config.numInputImages));
      named.(connectionId := if Start in left then None else Some(connectionId),
             resolvedConfig := if Config in left then None else Some(config),
             completed := if Done in left then None else Some(CompletionOf(completion)))
    }

    /** The one event of the turn. */
    function Report(): Event
      requires completion.TurnCompleted?
    {
      TurnEvent(turnId, config.threadId, connection, metadata, config.numInputImages, config, CompletionOf(completion),
                base.startedAt, base.tokenUsage, base.steerCount)
    }
  }

  predicate StartPending(s: State, j: Joining) {
    j.Key() in s.requests && s.requests[j.Key()] == PendingStart(j.config.threadId, j.config.numInputImages)
  }

  /** The reducer while parts of the turn are still to come: connection, thread and request are known. */
  ghost predicate Waiting(s: State, j: Joining, left: set<Part>) {
    && j.Valid()
    && j.connectionId in s.connections && s.connections[j.connectionId] == j.connection
    && j.config.threadId in s.threadMetadata && s.threadMetadata[j.config.threadId] == j.metadata
    && (Start in left ==> StartPending(s, j))
    && TurnOf(s, j.turnId) == if left == {} then EMPTY_TURN else j.TurnWithout(left)
  }

  /** A fact about other turns under other request keys that leaves the connection and the thread as they are. */
  predicate Unrelated(f: Fact, j: Joining) {
    match f
    case Initialize(c, connection) => c == j.connectionId ==> connection == j.connection
    case Request(c, id, _) => (c, id) != j.Key()
    case Response(c, response) =>
      (match response
       case ThreadOpened(thread, mode) =>
         thread.id == j.config.threadId ==> MetadataOf(thread.source, mode) == j.metadata
       case TurnStartAccepted(id, t) => (c, id) != j.Key() && t != j.turnId
       case TurnSteerAccepted(id, t) => (c, id) != j.Key() && t != j.turnId
       case OtherResponse => true)
    case ErrorResponse(c, id, _) => (c, id) != j.Key()
    case TurnStarted(t, _) => t != j.turnId
    case TurnCompleted(t, _, _, _, _) => t != j.turnId
    case ConfigResolved(config) => config.turnId != j.turnId
    case TokenUsage(t, _, _) => t != j.turnId
    case _ => true
  }

  /**
   A fact about the turn itself that is not one of its parts: token usage for the same thread, a start time, or an
   accepted steer under another request key.
   */
  predicate Touches(f: Fact, j: Joining) {
    match f
    case TurnStarted(t, _) => t == j.turnId
    case TokenUsage(t, thread, _) => t == j.turnId && thread == j.config.threadId
    case Response(c, TurnSteerAccepted(id, t)) => t == j.turnId && (c, id) != j.Key()
    case _ => false
  }

  /** What such a fact puts into the turn; a steer counts when it finds the turn. */
  function Touched(s: State, f: Fact, j: Joining): Joining {
    match f
    case TurnStarted(t, at) => if t == j.turnId then j.(base := j.base.(startedAt := Unsigned(at))) else j
    case TokenUsage(t, thread, usage) =>
      if t == j.turnId then j.(base := j.base.(threadId := Some(thread), tokenUsage := Some(usage))) else j
    case Response(_, _) =>
      if Steers(s, f, j.turnId) then j.(base := j.base.(steerCount := j.base.steerCount + 1)) else j
    case _ => j
  }

  /** The turn's own contribution to the report, after a run. */
  function TouchedBy(s: State, facts: seq<Fact>, j: Joining): Joining {
    if facts == [] then j
    else
      var rest, f := facts[..|facts| - 1], facts[|facts| - 1];
      Touched(After(s, rest), f, TouchedBy(s, rest, j))
  }

  /**
   The facts bring the parts in `from` without those in `left`, each once and in any order, among unrelated ones
   and, as long as a part is missing, among other facts about the turn.
   */
  ghost predicate Interleaved(facts: seq<Fact>, j: Joining, from: set<Part>, left: set<Part>) {
    if facts == [] then from == left
    else
      var rest, f := facts[..|facts| - 1], facts[|facts| - 1];
      || (Unrelated(f, j) && Interleaved(rest, j, from, left))
      || (Touches(f, j) && left != {} && Interleaved(rest, j, from, left))
      || exists p :: p in from && p !in left && f == j.FactOf(p) && Interleaved(rest, j, from, left + {p})
  }

  /** No report of the turn among some events. */
  ghost predicate Silent(events: seq<Event>, t: string) {
    forall i :: 0 <= i < |events| ==> !Reports(events[i], t)
  }

  lemma {:induction false} UnrelatedResponseWaits(
    s: State, c: ConnectionId, response: ClientResponse, j: Joining, left: set<Part>)
    requires Waiting(s, j, left) && Unrelated(Response(c, response), j)
    ensures Waiting(Respond(s, c, response).state, j, left) && Silent(Respond(s, c, response).events, j.turnId)
  {
    hide Complete;
  }

  lemma {:induction false} UnrelatedWaits(s: State, f: Fact, j: Joining, left: set<Part>)
    requires Waiting(s, j, left) && Unrelated(f, j)
    ensures Waiting(Step(s, f).state, j, left) && Silent(Step(s, f).events, j.turnId)
  {
    hide Complete, Respond;
    if f.Response? {
      UnrelatedResponseWaits(s, f.connectionId, f.response, j, left);
    }
  }

  /** A fact about the turn that is not a part changes what the report will say and reports nothing. */
  lemma {:induction false} TouchWaits(s: State, f: Fact, j: Joining, left: set<Part>)
    requires Waiting(s, j, left) && Touches(f, j) && left != {}
    ensures Waiting(Step(s, f).state, Touched(s, f, j), left) && Silent(Step(s, f).events, j.turnId)
  {
    assert Start in left || Config in left || Done in left by {
      var p :| p in left;
      assert p == Start || p == Config || p == Done;
    }
    match f {
      case Response(c, TurnSteerAccepted(id, t)) => SteerWaits(s, c, id, j, left);
      case _ =>
    }
  }

  lemma {:induction false} SteerWaits(s: State, c: ConnectionId, id: string, j: Joining, left: set<Part>)
    requires Waiting(s, j, left) && (c, id) != j.Key() && left != {}
    ensures
      var f := Response(c, TurnSteerAccepted(id, j.turnId));
      Waiting(Step(s, f).state, Touched(s, f, j), left) && Silent(Step(s, f).events, j.turnId)
  {}

  /** The parts of a turn do not change with the facts that touch it. */
  lemma {:induction false} SameParts(s: State, facts: seq<Fact>, j: Joining)
    ensures
      var k := TouchedBy(s, facts, j);
      && k.(base := j.base) == j && forall p :: k.FactOf(p) == j.FactOf(p)
    ensures
      var k := TouchedBy(s, facts, j);
      forall f :: (Unrelated(f, k) <==> Unrelated(f, j)) && (Touches(f, k) <==> Touches(f, j))
  {
    if facts != [] {
      SameParts(s, facts[..|facts| - 1], j);
    }
  }

  /** Unrelated facts and parts do not touch the turn. */
  lemma {:induction false} Untouched(s: State, f: Fact, j: Joining)
    requires j.Valid() && (Unrelated(f, j) || exists p :: f == j.FactOf(p))
    ensures Touched(s, f, j) == j
  {}

  /** What storing a part does: the report when it was the last one, and nothing otherwise. */
  ghost predicate Joins(o: Outcome, j: Joining, left: set<Part>)
    requires j.Valid()
  {
    Waiting(o.state, j, left) && o.events == if left == {} then [j.Report()] else []
  }

  lemma {:induction false} StartJoins(s: State, j: Joining, left: set<Part>)
    requires Waiting(s, j, left) && Start in left
    ensures Joins(Step(s, j.FactOf(Start)), j, left - {Start})
  {
    assert left == {Start} || Config in left || Done in left by { OtherParts(left, Start); }
  }

  lemma {:induction false} ConfigJoins(s: State, j: Joining, left: set<Part>)
    requires Waiting(s, j, left) && Config in left
    ensures Joins(Step(s, j.FactOf(Config)), j, left - {Config})
  {
    assert left == {Config} || Start in left || Done in left by { OtherParts(left, Config); }
  }

  lemma {:induction false} DoneJoins(s: State, j: Joining, left: set<Part>)
    requires Waiting(s, j, left) && Done in left
    ensures Joins(Step(s, j.FactOf(Done)), j, left - {Done})
  {
    assert left == {Done} || Start in left || Config in left by { OtherParts(left, Done); }
  }

  lemma {:induction false} OtherParts(left: set<Part>, p: Part)
    requires p in left
    ensures left == {p} || exists q :: q in left && q != p
  {
    if forall q :: q in left ==> q == p {
      assert left == {p};
    }
  }

  /** Each part but the last is stored; the last one reports the turn. */
  lemma {:induction false} PartJoins(s: State, j: Joining, left: set<Part>, p: Part)
    requires Waiting(s, j, left) && p in left
    ensures Joins(Step(s, j.FactOf(p)), j, left - {p})
  {
    match p {
      case Start => StartJoins(s, j, left);
      case Config => ConfigJoins(s, j, left);
      case Done => DoneJoins(s, j, left);
    }
  }

  /** The turn has been reported once, as it should be, if no part is left, and not at all otherwise. */
  ghost predicate Joined(s: State, events: seq<Event>, j: Joining, left: set<Part>) {
    && Waiting(s, j, left)
    && (left != {} ==> Silent(events, j.turnId))
    && (left == {} ==> Reported(events, j.turnId) == 1 && OnlyReport(events, j.turnId, j.Report()))
  }

  ghost predicate OnlyReport(events: seq<Event>, t: string, report: Event) {
    forall i :: 0 <= i < |events| && Reports(events[i], t) ==> events[i] == report
  }

  /** A silent step. */
  lemma {:induction false} StaysJoined(
    s: State, events: seq<Event>, j: Joining, left: set<Part>, s': State, more: seq<Event>, j': Joining)
    requires Joined(s, events, j, left) && Waiting(s', j', left) && Silent(more, j.turnId)
    requires j'.turnId == j.turnId && (left == {} ==> j' == j)
    ensures Joined(s', events + more, j', left)
  {
    hide Waiting, Reported, SteersReported;
    ReportedSplit(events, more, j.turnId);
    NothingReported(more, j.turnId);
  }

  /** The step of a part. */
  lemma {:induction false} BecomesJoined(s: State, events: seq<Event>, j: Joining, left: set<Part>, p: Part, o: Outcome)
    requires j.Valid() && Joined(s, events, j, left + {p}) && Joins(o, j, left)
    ensures Joined(o.state, events + o.events, j, left)
  {
    hide Waiting, Reported, SteersReported;
    assert left + {p} != {} by { assert p in left + {p}; }
    if left == {} {
      ReportedSplit(events, o.events, j.turnId);
      NothingReported(events, j.turnId);
      ReportedOne(j.Report(), j.turnId);
    }
  }

  /**
   Joining is confluent: however the parts are ordered and interleaved, the turn has been reported once if no part
   is left and not at all otherwise. What the report says depends on the parts and on the facts that touch the turn
   before the last part, and neither on the order of the parts nor on the unrelated facts.
   */
  lemma {:induction false} TurnJoins(s: State, facts: seq<Fact>, j: Joining, from: set<Part>, left: set<Part>)
    requires Waiting(s, j, from) && from != {} && Interleaved(facts, j, from, left)
    ensures left <= from && Joined(After(s, facts), Events(s, facts), TouchedBy(s, facts, j), left)
  {
    if facts != [] {
      var rest, f := facts[..|facts| - 1], facts[|facts| - 1];
      var k, t, events := TouchedBy(s, rest, j), After(s, rest), Events(s, rest);
      var o := Step(t, f);
      SameParts(s, rest, j);
      hide Waiting, Step, Unrelated, Touches, Touched, Joined, Joins;
      if Unrelated(f, j) && Interleaved(rest, j, from, left) {
        TurnJoins(s, rest, j, from, left);
        JoinedWaits(t, events, k, left);
        UnrelatedWaits(t, f, k, left);
        Untouched(t, f, k);
        StaysJoined(t, events, k, left, o.state, o.events, k);
      } else if Touches(f, j) && left != {} && Interleaved(rest, j, from, left) {
        TurnJoins(s, rest, j, from, left);
        JoinedWaits(t, events, k, left);
        TouchWaits(t, f, k, left);
        SameTurn(t, f, k);
        StaysJoined(t, events, k, left, o.state, o.events, Touched(t, f, k));
      } else {
        var p :| p in from && p !in left && f == j.FactOf(p) && Interleaved(rest, j, from, left + {p});
        TurnJoins(s, rest, j, from, left + {p});
        JoinedWaits(t, events, k, left + {p});
        PartJoins(t, k, left + {p}, p);
        Untouched(t, f, k);
        assert left + {p} - {p} == left;
        BecomesJoined(t, events, k, left, p, o);
      }
    }
  }

  lemma {:induction false} JoinedWaits(s: State, events: seq<Event>, j: Joining, left: set<Part>)
    requires Joined(s, events, j, left)
    ensures Waiting(s, j, left) && j.Valid()
  {}

  lemma {:induction false} SameTurn(s: State, f: Fact, j: Joining)
    ensures Touched(s, f, j).turnId == j.turnId
  {}

  const ALL_PARTS := {Start, Config, Done}

  /** The report comes at the last part, whichever that is: nothing before it. */
  lemma {:induction false} ReportedAtTheLastPart(s: State, before: seq<Fact>, p: Part, j: Joining)
    requires Waiting(s, j, ALL_PARTS) && Interleaved(before, j, ALL_PARTS, {p})
    ensures Silent(Events(s, before), j.turnId) && TouchedBy(s, before, j).Valid()
    ensures Step(After(s, before), j.FactOf(p)).events == [TouchedBy(s, before, j).Report()]
    ensures TurnOf(Step(After(s, before), j.FactOf(p)).state, j.turnId) == EMPTY_TURN
  {
    TurnJoins(s, before, j, ALL_PARTS, {p});
    SameParts(s, before, j);
    PartJoins(After(s, before), TouchedBy(s, before, j), {p}, p);
    assert {p} - {p} == {};
  }
}
