/** Facts, events and the state of the analytics reducer (`analytics/src/reducer.rs`). */
module Reducer {
  import opened Basics

  type ConnectionId = nat
  type RequestKey = (ConnectionId, string)

  /** What an initialized connection contributes to events. */
  datatype Connection = Connection(client: string, runtime: string)

  datatype InitializationMode = New | Resumed | Forked

  datatype SessionSource = SubAgent(name: string, parentThreadId: Option<string>) | Direct(source: Option<string>)

  datatype ThreadMetadata = ThreadMetadata(
    source: Option<string>, mode: InitializationMode, subagentSource: Option<string>, parentThreadId: Option<string>)

  datatype Thread = Thread(id: string, source: SessionSource, model: string, createdAt: int)

  /** Settings of a turn; those that only pass through are one text. */
  datatype ResolvedConfig = ResolvedConfig(turnId: string, threadId: string, numInputImages: nat, settings: string)

  datatype Completion = Completion(
    status: Option<string>, error: Option<string>, completedAt: nat, durationMs: Option<nat>)

  datatype Pending =
    | PendingStart(threadId: string, numInputImages: nat)
    | PendingSteer(threadId: string, expectedTurnId: string, numInputImages: nat, createdAt: nat)

  datatype TurnState = TurnState(
    connectionId: Option<ConnectionId>,
    threadId: Option<string>,
    numInputImages: Option<nat>,
    resolvedConfig: Option<ResolvedConfig>,
    startedAt: Option<nat>,
    tokenUsage: Option<string>,
    completed: Option<Completion>,
    steerCount: nat)

  const EMPTY_TURN := TurnState(None, None, None, None, None, None, None, 0)

  datatype ClientRequest =
    | TurnStart(threadId: string, numInputImages: nat)
    | TurnSteer(threadId: string, expectedTurnId: string, numInputImages: nat, createdAt: nat)
    | OtherRequest

  datatype ClientResponse =
    | ThreadOpened(thread: Thread, mode: InitializationMode)
    | TurnStartAccepted(requestId: string, turnId: string)
    | TurnSteerAccepted(requestId: string, turnId: string)
    | OtherResponse

  datatype Fact =
    | Initialize(connectionId: ConnectionId, connection: Connection)
    | Request(connectionId: ConnectionId, requestId: string, request: ClientRequest)
    | Response(connectionId: ConnectionId, response: ClientResponse)
    | ErrorResponse(connectionId: ConnectionId, requestId: string, reason: Option<string>)
    | TurnStarted(turnId: string, startedAt: Option<int>)
    | TurnCompleted(turnId: string, status: Option<string>, error: Option<string>, completedAt: Option<int>,
                    durationMs: Option<int>)
    | OtherNotification
    | Compaction(threadId: string, payload: string)
    | GuardianReview(threadId: string, payload: string)
    | ConfigResolved(config: ResolvedConfig)
    | TokenUsage(turnId: string, threadId: string, usage: string)
    /** Facts that become events without looking at the state. */
    | Stateless(payloads: seq<string>)

  datatype Event =
    | TurnEvent(turnId: string, threadId: string, connection: Connection, metadata: ThreadMetadata,
                numInputImages: nat, config: ResolvedConfig, completed: Completion, startedAt: Option<nat>,
                tokenUsage: Option<string>, steerCount: nat)
    | SteerEvent(threadId: string, expectedTurnId: string, acceptedTurnId: Option<string>, connection: Connection,
                 metadata: ThreadMetadata, numInputImages: nat, reason: Option<string>, createdAt: nat)
    | ThreadInitialized(threadId: string, connection: Connection, model: string, metadata: ThreadMetadata,
                        createdAt: nat)
    | CompactionEvent(payload: string, connection: Connection, metadata: ThreadMetadata)
    | GuardianEvent(payload: string, connection: Connection)
    | StatelessEvent(payload: string)

  datatype State = State(
    requests: map<RequestKey, Pending>,
    turns: map<string, TurnState>,
    connections: map<ConnectionId, Connection>,
    threadConnections: map<string, ConnectionId>,
    threadMetadata: map<string, ThreadMetadata>)

  const EMPTY := State(map[], map[], map[], map[], map[])

  datatype Outcome = Outcome(state: State, events: seq<Event>)

  /** `u64::try_from`, with `None` for what does not fit. */
  function Unsigned(n: Option<int>): Option<nat> {
    match n
    case Some(v) => if 0 <= v <= 0xFFFF_FFFF_FFFF_FFFF then Some(v) else None
    case None => None
  }

  /** `ThreadMetadataState::from_thread_metadata`. */
  function MetadataOf(source: SessionSource, mode: InitializationMode): ThreadMetadata {
    match source
    case SubAgent(name, parent) => ThreadMetadata(Some("subagent"), mode, Some(name), parent)
    case Direct(name) => ThreadMetadata(name, mode, None, None)
  }

  function TurnOf(s: State, t: string): TurnState {
    if t in s.turns then s.turns[t] else EMPTY_TURN
  }

  function WithTurn(s: State, t: string, turn: TurnState): State {
    s.(turns := s.turns[t := turn])
  }

  function PendingOf(request: ClientRequest): Option<Pending> {
    match request
    case TurnStart(thread, images) => Some(PendingStart(thread, images))
    case TurnSteer(thread, expected, images, at) => Some(PendingSteer(thread, expected, images, at))
    case OtherRequest => None
  }

  /** A turn whose parts have all arrived, on a known connection and thread. */
  predicate Complete(s: State, t: string) {
    && t in s.turns
    && var turn := s.turns[t];
    && turn.threadId.Some? && turn.numInputImages.Some? && turn.resolvedConfig.Some? && turn.completed.Some?
    && turn.connectionId.Some? && turn.connectionId.value in s.connections
    && turn.threadId.value in s.threadMetadata
  }

  function TurnEventOf(s: State, t: string): Event
    requires Complete(s, t)
  {
    var turn := s.turns[t];
    TurnEvent(t, turn.threadId.value, s.connections[turn.connectionId.value], s.threadMetadata[turn.threadId.value],
              turn.numInputImages.value, turn.resolvedConfig.value, turn.completed.value, turn.startedAt,
              turn.tokenUsage, turn.steerCount)
  }

  /** A complete turn is reported and forgotten. */
  function MaybeEmit(s: State, t: string): Outcome {
    if Complete(s, t) then Outcome(s.(turns := s.turns - {t}), [TurnEventOf(s, t)]) else Outcome(s, [])
  }

  function Steered(
    s: State, c: ConnectionId, pending: Pending, accepted: Option<string>, reason: Option<string>): seq<Event>
    requires pending.PendingSteer?
  {
    if c in s.connections && pending.threadId in s.threadMetadata then
      [SteerEvent(pending.threadId, pending.expectedTurnId, accepted, s.connections[c],
                  s.threadMetadata[pending.threadId], pending.numInputImages, reason, pending.createdAt)]
    else []
  }

  function OpenThread(s: State, c: ConnectionId, thread: Thread, mode: InitializationMode): Outcome {
    if c !in s.connections then Outcome(s, [])
    else
      var metadata := MetadataOf(thread.source, mode);
      Outcome(
        s.(threadConnections := s.threadConnections[thread.id := c],
           threadMetadata := s.threadMetadata[thread.id := metadata]),
        [ThreadInitialized(thread.id, s.connections[c], thread.model, metadata,
                           Unsigned(Some(thread.createdAt)).UnwrapOr(0))])
  }

  /** The pending request is used up even when its kind does not match. */
  function AcceptStart(s: State, c: ConnectionId, requestId: string, t: string): Outcome {
    var key := (c, requestId);
    if key !in s.requests then Outcome(s, [])
    else
      var rest := s.(requests := s.requests - {key});
      match s.requests[key]
      case PendingStart(thread, images) =>
        var turn := TurnOf(s, t).(connectionId := Some(c), threadId := Some(thread), numInputImages := Some(images));
        MaybeEmit(WithTurn(rest, t, turn), t)
      case PendingSteer(_, _, _, _) => Outcome(rest, [])
  }

  function AcceptSteer(s: State, c: ConnectionId, requestId: string, t: string): Outcome {
    var key := (c, requestId);
    if key !in s.requests then Outcome(s, [])
    else
      var rest := s.(requests := s.requests - {key});
      var pending := s.requests[key];
      if pending.PendingStart? then Outcome(rest, [])
      else
        var counted :=
          if t in s.turns then WithTurn(rest, t, s.turns[t].(steerCount := s.turns[t].steerCount + 1)) else rest;
        Outcome(counted, Steered(s, c, pending, Some(t), None))
  }

  function RefuseRequest(s: State, c: ConnectionId, requestId: string, reason: Option<string>): Outcome {
    var key := (c, requestId);
    if key !in s.requests then Outcome(s, [])
    else
      var pending := s.requests[key];
      Outcome(s.(requests := s.requests - {key}),
              if pending.PendingSteer? then Steered(s, c, pending, None, reason) else [])
  }

  function Respond(s: State, c: ConnectionId, response: ClientResponse): Outcome {
    match response
    case ThreadOpened(thread, mode) => OpenThread(s, c, thread, mode)
    case TurnStartAccepted(id, t) => AcceptStart(s, c, id, t)
    case TurnSteerAccepted(id, t) => AcceptSteer(s, c, id, t)
    case OtherResponse => Outcome(s, [])
  }

  function CompletionOf(f: Fact): Completion
    requires f.TurnCompleted?
  {
    Completion(f.status, f.error, Unsigned(f.completedAt).UnwrapOr(0), Unsigned(f.durationMs))
  }

  /** One fact. */
  function Step(s: State, f: Fact): Outcome {
    match f
    case Initialize(c, connection) => Outcome(s.(connections := s.connections[c := connection]), [])
    case Request(c, id, request) =>
      var pending := PendingOf(request);
      Outcome(if pending.Some? then s.(requests := s.requests[(c, id) := pending.value]) else s, [])
    case Response(c, response) => Respond(s, c, response)
    case ErrorResponse(c, id, reason) => RefuseRequest(s, c, id, reason)
    case TurnStarted(t, at) => Outcome(WithTurn(s, t, TurnOf(s, t).(startedAt := Unsigned(at))), [])
    case TurnCompleted(t, _, _, _, _) => MaybeEmit(WithTurn(s, t, TurnOf(s, t).(completed := Some(CompletionOf(f)))), t)
    case OtherNotification => Outcome(s, [])
    case Compaction(thread, payload) =>
      Outcome(s, if KnownThread(s, thread) && thread in s.threadMetadata
                 then [CompactionEvent(payload, s.connections[s.threadConnections[thread]], s.threadMetadata[thread])]
                 else [])
    case GuardianReview(thread, payload) =>
      var connection := if KnownThread(s, thread) then Some(s.connections[s.threadConnections[thread]]) else None;
      Outcome(s, if connection.Some? then [GuardianEvent(payload, connection.value)] else [])
    case ConfigResolved(config) =>
      var turn := TurnOf(s, config.turnId).(
        threadId := Some(config.threadId), numInputImages := Some(config.numInputImages),
        resolvedConfig := Some(config));
      MaybeEmit(WithTurn(s, config.turnId, turn), config.turnId)
    case TokenUsage(t, thread, usage) =>
      MaybeEmit(WithTurn(s, t, TurnOf(s, t).(threadId := Some(thread), tokenUsage := Some(usage))), t)
    case Stateless(payloads) =>
      Outcome(s, seq(|payloads|, i requires 0 <= i < |payloads| => StatelessEvent(payloads[i])))
  }

  predicate KnownThread(s: State, thread: string) {
    thread in s.threadConnections && s.threadConnections[thread] in s.connections
  }

  /** A run of facts. */
  function After(s: State, facts: seq<Fact>): State {
    if facts == [] then s else Step(After(s, facts[..|facts| - 1]), facts[|facts| - 1]).state
  }

  function Events(s: State, facts: seq<Fact>): seq<Event> {
    if facts == [] then []
    else Events(s, facts[..|facts| - 1]) + Step(After(s, facts[..|facts| - 1]), facts[|facts| - 1]).events
  }
}

/** The reducer as the source has it: five maps that each fact updates in place. */
module ReducerMethods {
  import opened Basics
  import opened Reducer

  class AnalyticsReducer {
    var requests: map<RequestKey, Pending>
    var turns: map<string, TurnState>
    var connections: map<ConnectionId, Connection>
    var threadConnections: map<string, ConnectionId>
    var threadMetadata: map<string, ThreadMetadata>

    function Value(): State
      reads this
    {
      State(requests, turns, connections, threadConnections, threadMetadata)
    }

    constructor ()
      ensures Value() == EMPTY
    {
      requests, turns, connections, threadConnections, threadMetadata := map[], map[], map[], map[], map[];
    }

    /** `ingest`. */
    method Ingest(fact: Fact, out: seq<Event>) returns (out': seq<Event>)
      modifies this
      ensures Value() == Step(old(Value()), fact).state
      ensures out' == out + Step(old(Value()), fact).events
    {
      out' := out;
      match fact {
        case Initialize(c, connection) =>
          connections := connections[c := connection];
        case Request(c, id, request) =>
          match request {
            case TurnStart(thread, images) => requests := requests[(c, id) := PendingStart(thread, images)];
            case TurnSteer(thread, expected, images, at) =>
              requests := requests[(c, id) := PendingSteer(thread, expected, images, at)];
            case OtherRequest =>
          }
        case Response(c, response) =>
          out' := IngestResponse(c, response, out');
        case ErrorResponse(c, id, reason) =>
          out' := IngestErrorResponse(c, id, reason, out');
        case TurnStarted(t, at) =>
          turns := turns[t := TurnOf(Value(), t).(startedAt := Unsigned(at))];
        case TurnCompleted(t, status, error, at, duration) =>
          var completion := Completion(status, error, Unsigned(at).UnwrapOr(0), Unsigned(duration));
          turns := turns[t := TurnOf(Value(), t).(completed := Some(completion))];
          out' := MaybeEmitTurnEvent(t, out');
        case OtherNotification =>
        case Compaction(thread, payload) =>
          out' := IngestCompaction(thread, payload, out');
        case GuardianReview(thread, payload) =>
          if thread in threadConnections && threadConnections[thread] in connections {
            out' := out' + [GuardianEvent(payload, connections[threadConnections[thread]])];
          }
        case ConfigResolved(config) =>
          turns := turns[config.turnId := TurnOf(Value(), config.turnId).(
            threadId := Some(config.threadId), numInputImages := Some(config.numInputImages),
            resolvedConfig := Some(config))];
          out' := MaybeEmitTurnEvent(config.turnId, out');
        case TokenUsage(t, thread, usage) =>
          turns := turns[t := TurnOf(Value(), t).(threadId := Some(thread), tokenUsage := Some(usage))];
          out' := MaybeEmitTurnEvent(t, out');
        case Stateless(payloads) =>
          out' := PushAll(payloads, out');
      }
    }

    method PushAll(payloads: seq<string>, out: seq<Event>) returns (out': seq<Event>)
      ensures out' == out + seq(|payloads|, i requires 0 <= i < |payloads| => StatelessEvent(payloads[i]))
    {
      out' := out;
      for i := 0 to |payloads|
        invariant out' == out + seq(i, j requires 0 <= j < i => StatelessEvent(payloads[j]))
      {
        out' := out' + [StatelessEvent(payloads[i])];
      }
    }

    method IngestCompaction(thread: string, payload: string, out: seq<Event>) returns (out': seq<Event>)
      ensures out' == out + Step(Value(), Compaction(thread, payload)).events
    {
      out' := out;
      if thread !in threadConnections {
        return;
      }
      if threadConnections[thread] !in connections {
        return;
      }
      if thread !in threadMetadata {
        return;
      }
      out' := out' + [CompactionEvent(payload, connections[threadConnections[thread]], threadMetadata[thread])];
    }

    method IngestResponse(c: ConnectionId, response: ClientResponse, out: seq<Event>) returns (out': seq<Event>)
      modifies this
      ensures Value() == Respond(old(Value()), c, response).state
      ensures out' == out + Respond(old(Value()), c, response).events
    {
      out' := out;
      match response {
        case ThreadOpened(thread, mode) =>
          out' := EmitThreadInitialized(c, thread, mode, out');
        case TurnStartAccepted(id, t) =>
          if (c, id) in requests {
            var request := requests[(c, id)];
            requests := requests - {(c, id)};
            if request.PendingStart? {
              turns := turns[t := TurnOf(Value(), t).(
                connectionId := Some(c), threadId := Some(request.threadId),
                numInputImages := Some(request.numInputImages))];
              out' := MaybeEmitTurnEvent(t, out');
            }
          }
        case TurnSteerAccepted(id, t) =>
          if (c, id) in requests {
            var request := requests[(c, id)];
            requests := requests - {(c, id)};
            if request.PendingSteer? {
              if t in turns {
                turns := turns[t := turns[t].(steerCount := turns[t].steerCount + 1)];
              }
              out' := EmitTurnSteerEvent(c, request, Some(t), None, out');
            }
          }
        case OtherResponse =>
      }
    }

    method IngestErrorResponse(c: ConnectionId, id: string, reason: Option<string>, out: seq<Event>)
      returns (out': seq<Event>)
      modifies this`requests
      ensures Value() == RefuseRequest(old(Value()), c, id, reason).state
      ensures out' == out + RefuseRequest(old(Value()), c, id, reason).events
    {
      out' := out;
      if (c, id) in requests {
        var request := requests[(c, id)];
        requests := requests - {(c, id)};
        if request.PendingSteer? {
          out' := EmitTurnSteerEvent(c, request, None, reason, out');
        }
      }
    }

    /** `emit_thread_initialized`. */
    method EmitThreadInitialized(c: ConnectionId, thread: Thread, mode: InitializationMode, out: seq<Event>)
      returns (out': seq<Event>)
      modifies this`threadConnections, this`threadMetadata
      ensures Value() == OpenThread(old(Value()), c, thread, mode).state
      ensures out' == out + OpenThread(old(Value()), c, thread, mode).events
    {
      out' := out;
      if c !in connections {
        return;
      }
      var metadata := MetadataOf(thread.source, mode);
      threadConnections := threadConnections[thread.id := c];
      threadMetadata := threadMetadata[thread.id := metadata];
      var createdAt := Unsigned(Some(thread.createdAt)).UnwrapOr(0);
      out' := out' + [ThreadInitialized(thread.id, connections[c], thread.model, metadata, createdAt)];
    }

    /** `emit_turn_steer_event`. */
    method EmitTurnSteerEvent(
      c: ConnectionId, request: Pending, accepted: Option<string>, reason: Option<string>, out: seq<Event>)
      returns (out': seq<Event>)
      requires request.PendingSteer?
      ensures out' == out + Steered(Value(), c, request, accepted, reason)
    {
      out' := out;
      if c !in connections {
        return;
      }
      if request.threadId !in threadMetadata {
        return;
      }
      out' := out' + [SteerEvent(request.threadId, request.expectedTurnId, accepted, connections[c],
                                 threadMetadata[request.threadId], request.numInputImages, reason, request.createdAt)];
    }

    /** `maybe_emit_turn_event`. */
    method MaybeEmitTurnEvent(t: string, out: seq<Event>) returns (out': seq<Event>)
      modifies this`turns
      ensures Value() == MaybeEmit(old(Value()), t).state
      ensures out' == out + MaybeEmit(old(Value()), t).events
    {
      out' := out;
      if t !in turns {
        return;
      }
      var turn := turns[t];
      if turn.threadId.None? || turn.numInputImages.None? || turn.resolvedConfig.None? || turn.completed.None? {
        return;
      }
      if turn.connectionId.None? || turn.connectionId.value !in connections {
        return;
      }
      if turn.threadId.value !in threadMetadata {
        return;
      }
      out' := out' + [TurnEvent(t, turn.threadId.value, connections[turn.connectionId.value],
                                threadMetadata[turn.threadId.value], turn.numInputImages.value,
                                turn.resolvedConfig.value, turn.completed.value, turn.startedAt, turn.tokenUsage,
                                turn.steerCount)];
      turns := turns - {t};
    }
  }

  /** A run of the reducer is the run of its specification. */
  method IngestAll(reducer: AnalyticsReducer, facts: seq<Fact>) returns (out: seq<Event>)
    modifies reducer
    ensures reducer.Value() == After(old(reducer.Value()), facts)
    ensures out == Events(old(reducer.Value()), facts)
  {
    out := [];
    for i := 0 to |facts|
      invariant reducer.Value() == After(old(reducer.Value()), facts[..i])
      invariant out == Events(old(reducer.Value()), facts[..i])
    {
      assert facts[..i + 1][..i] == facts[..i];
      out := reducer.Ingest(facts[i], out);
    }
    assert facts[..|facts|] == facts;
  }
}
