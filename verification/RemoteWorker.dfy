/** The worker task, the handshake and the consumer side of the remote client (`app-server-client/src/remote.rs`). */
module RemoteWorker {
  import opened Basics
  import opened RemoteProtocol

  /** The websocket; a write may fail at any time. */
  class Stream {
    ghost var written: seq<Outgoing>
    ghost var failures: nat

    constructor ()
      ensures written == [] && failures == 0
    {
      written, failures := [], 0;
    }

    method Write(message: Outgoing) returns (ok: bool)
      modifies this
      ensures Tried(message, ok)
    {
      ok := *;
      if ok {
        written := written + [message];
      } else {
        failures := failures + 1;
      }
    }

    /** One write of a message, which went out or failed. */
    twostate predicate Tried(message: Outgoing, ok: bool)
      reads this
    {
      && written == (if ok then old(written) + [message] else old(written))
      && failures == (if ok then old(failures) else old(failures) + 1)
    }

    twostate predicate Untouched()
      reads this
    {
      written == old(written) && failures == old(failures)
    }
  }

  /** The unbounded event channel; the consumer may go away at any time. */
  class EventSink {
    var queue: seq<AppEvent>
    var open: bool
    ghost var sent: seq<AppEvent>
    ghost var taken: seq<AppEvent>

    ghost predicate Valid()
      reads this
    {
      taken + queue == sent
    }

    constructor ()
      ensures Valid() && open && sent == [] && taken == []
    {
      queue, open, sent, taken := [], true, [], [];
    }

    /** `deliver_event`. */
    method Deliver(event: AppEvent) returns (ok: bool)
      requires Valid()
      modifies this
      ensures Valid() && taken == old(taken) && open == ok && (ok ==> old(open))
      ensures sent == if ok then old(sent) + [event] else old(sent)
    {
      var gone: bool := *;
      open := open && !gone;
      ok := open;
      if ok {
        queue := queue + [event];
        sent := sent + [event];
      }
    }

    method Take() returns (event: Option<AppEvent>)
      requires Valid()
      modifies this`queue, this`taken
      ensures Valid()
      ensures event.Some? ==> taken == old(taken) + [event.value]
      ensures event.None? ==> taken == old(taken) && queue == old(queue) == []
    {
      if queue == [] {
        return None;
      }
      event := Some(queue[0]);
      taken := taken + [queue[0]];
      queue := queue[1..];
    }
  }

  class Worker {
    const stream: Stream
    const sink: EventSink
    var pending: map<RequestId, Waiter>
    var running: bool
    /** Replies sent to callers, in order. */
    var answers: seq<Answer>
    ghost var accepted: map<Waiter, Option<RequestId>>
    /** Messages handled, without one whose event could not be delivered. */
    ghost var handled: seq<WireMessage>

    ghost predicate Valid()
      reads this, sink
    {
      && sink.Valid()
      && Settled(accepted, answers, pending)
      && Authentic(answers, handled)
      && InOrder(sink.sent, handled, running, sink.open)
    }

    constructor (stream: Stream)
      ensures Valid() && running && fresh(sink) && this.stream == stream
      ensures accepted == map[] && handled == [] && answers == [] && pending == map[] && sink.taken == []
    {
      this.stream := stream;
      sink := new EventSink();
      pending, running, answers := map[], true, [];
      accepted, handled := map[], [];
    }

    /** Sends the last event of the worker and stops it. */
    method Disconnect(reason: string)
      requires Valid() && running
      modifies this`running, sink
      ensures Valid() && !running && sink.taken == old(sink.taken)
      ensures sink.sent == if sink.open then old(sink.sent) + [Disconnected(reason)] else old(sink.sent)
    {
      hide Settled;
      var ok := sink.Deliver(Disconnected(reason));
      running := false;
      if ok {
        assert sink.sent[..|sink.sent| - 1] == old(sink.sent);
      }
    }

    /** Replies to a caller that is not waiting. */
    method ReplyNow(waiter: Waiter, id: Option<RequestId>, reply: Reply)
      requires Settled(accepted, answers, pending) && waiter !in accepted && !reply.Result? && !reply.ServerError?
      modifies this`answers, this`accepted
      ensures Settled(accepted, answers, pending)
      ensures accepted == old(accepted)[waiter := id] && answers == old(answers) + [Answer(waiter, id, reply)]
    {
      SettledAtOnce(accepted, answers, pending, waiter, id, reply);
      accepted := accepted[waiter := id];
      answers := answers + [Answer(waiter, id, reply)];
    }

    /** Replies to the caller waiting under an id, if there is one, and forgets it. */
    method ReplyPending(id: RequestId, reply: Reply)
      requires Settled(accepted, answers, pending)
      modifies this`pending, this`answers
      ensures Settled(accepted, answers, pending)
      ensures pending == old(pending) - {id}
      ensures answers == old(answers) + if id in old(pending) then [Answer(old(pending)[id], Some(id), reply)] else []
    {
      if id in pending {
        SettledAnswer(accepted, answers, pending, id, reply);
        answers := answers + [Answer(pending[id], Some(id), reply)];
      }
      pending := pending - {id};
    }

    /** A request: refused when its id is in flight, otherwise registered and written. */
    method HandleRequest(id: RequestId, waiter: Waiter)
      requires Valid() && running && waiter !in accepted
      modifies this`pending, this`answers, this`accepted, this`running, stream, sink
      ensures Valid() && accepted == old(accepted)[waiter := Some(id)] && sink.taken == old(sink.taken)
      ensures Requested(id, waiter)
    {
      hide Settled, InOrder;
      if id in pending {
        ReplyNow(waiter, Some(id), DuplicateId);
        return;
      }
      SettledWaiting(accepted, answers, pending, waiter, id);
      pending := pending[id := waiter];
      accepted := accepted[waiter := Some(id)];
      var ok := stream.Write(OutRequest(id));
      if !ok {
        ReplyPending(id, WriteFailed);
        assert pending == old(pending);
        Disconnect("write failed");
        assert sink.sent == old(sink.sent) + if sink.open then [Disconnected("write failed")] else [];
      }
    }

    /**
     A request in flight is not written again; any other waits once it is written, and
     ends the loop if that fails.
     */
    twostate predicate Requested(id: RequestId, waiter: Waiter)
      reads this, stream, sink
    {
      if id in old(pending) then
        && pending == old(pending) && answers == old(answers) + [Answer(waiter, Some(id), DuplicateId)]
        && running && stream.Untouched() && sink.sent == old(sink.sent)
      else
        && stream.Tried(OutRequest(id), running)
        && if running then
             pending == old(pending)[id := waiter] && answers == old(answers) && sink.sent == old(sink.sent)
           else
             && pending == old(pending) && answers == old(answers) + [Answer(waiter, Some(id), WriteFailed)]
             && sink.sent == old(sink.sent) + if sink.open then [Disconnected("write failed")] else []
    }

    /** Notifications and replies to server requests: one write, answered with its result. */
    method HandleWrite(message: Outgoing, waiter: Waiter)
      requires Valid() && running && waiter !in accepted
      modifies this`answers, this`accepted, stream
      ensures Valid() && accepted == old(accepted)[waiter := None] && WroteFor(message, waiter)
    {
      hide Settled, InOrder;
      var ok := stream.Write(message);
      ReplyNow(waiter, None, if ok then Written else WriteFailed);
    }

    twostate predicate WroteFor(message: Outgoing, waiter: Waiter)
      reads this, stream
    {
      || (stream.Tried(message, true) && answers == old(answers) + [Answer(waiter, None, Written)])
      || (stream.Tried(message, false) && answers == old(answers) + [Answer(waiter, None, WriteFailed)])
    }

    method HandleCommand(command: Command)
      requires Valid() && running && command.waiter !in accepted
      modifies this`pending, this`answers, this`accepted, this`running, stream, sink
      ensures Valid() && accepted.Keys == old(accepted).Keys + {command.waiter} && sink.taken == old(sink.taken)
      ensures CommandDone(command)
    {
      hide Settled, InOrder;
      match command {
        case SendRequest(id, waiter) => HandleRequest(id, waiter);
        case Notify(waiter) => HandleWrite(OutNotification, waiter);
        case ResolveServerRequest(id, waiter) => HandleWrite(OutResult(id), waiter);
        case RejectServerRequest(id, waiter) => HandleWrite(OutError(id), waiter);
        case Shutdown(waiter) =>
          HandleWrite(OutClose, waiter);
          Stop();
      }
    }

    /**
     Every command but a request writes its own message and is answered with the result;
     only shutdown ends the loop.
     */
    twostate predicate CommandDone(command: Command)
      reads this, stream, sink
    {
      if command.SendRequest? then Requested(command.id, command.waiter)
      else
        && pending == old(pending) && sink.sent == old(sink.sent) && running == !command.Shutdown?
        && WroteFor(WriteOf(command), command.waiter)
    }

    /** What a command other than a request puts on the wire. */
    static function WriteOf(command: Command): Outgoing {
      match command
      case ResolveServerRequest(id, _) => OutResult(id)
      case RejectServerRequest(id, _) => OutError(id)
      case Shutdown(_) => OutClose
      case _ => OutNotification
    }

    /** Leaves the loop without telling the consumer. */
    method Stop()
      requires Valid() && running
      modifies this`running
      ensures Valid() && !running
    {
      hide Settled;
      running := false;
    }

    /** The last command handle is gone: the stream is closed, whether or not that succeeds. */
    method CloseStream()
      requires Valid() && running
      modifies this`running, stream
      ensures Valid() && !running && Closes()
    {
      hide Settled, InOrder;
      var _ := stream.Write(OutClose);
      Stop();
    }

    twostate predicate Closes()
      reads this, stream
    {
      !running && (stream.Tried(OutClose, true) || stream.Tried(OutClose, false))
    }

    /** A message of the server. */
    method HandleMessage(message: WireMessage)
      requires Valid() && running
      modifies this`pending, this`answers, this`running, this`handled, stream, sink
      ensures Valid() && sink.taken == old(sink.taken)
      ensures MessageDone(message)
      ensures handled == old(handled) + [message] || (!running && !sink.open && handled == old(handled))
    {
      hide Settled, InOrder;
      match message {
        case Response(id, result) =>
          HandledQuietly(message);
          ReplyPending(id, Result(result));
        case ErrorReply(id, error) =>
          HandledQuietly(message);
          ReplyPending(id, ServerError(error));
        case Notification(known) =>
          DeliverKnown(message);
        case Request(id, known) =>
          if known.Some? {
            DeliverKnown(message);
          } else {
            var ok := stream.Write(OutError(id));
            HandledQuietly(message);
            if !ok {
              Disconnect("write failed");
            }
          }
        case Close(reason) =>
          HandledQuietly(message);
          Disconnect(if reason == "" then "connection closed" else reason);
        case Ignored =>
          HandledQuietly(message);
        case InvalidText =>
          HandledQuietly(message);
          Disconnect("sent invalid JSON-RPC");
        case TransportFailed =>
          HandledQuietly(message);
          Disconnect("transport failed");
        case Ended =>
          HandledQuietly(message);
          Disconnect("closed the connection");
      }
    }

    /**
     Replies reach the caller waiting under their id, events the consumer, and an error reply the server when it asks
     for something unknown; the loop ends at the messages that have a reason, when the consumer is gone, and when
     that error reply cannot be written.
     */
    twostate predicate MessageDone(message: WireMessage)
      reads this, stream, sink
    {
      match message
      case Response(id, result) =>
        Resolves(id, Result(result), old(pending), old(answers)) && Quiet() && stream.Untouched()
      case ErrorReply(id, error) =>
        Resolves(id, ServerError(error), old(pending), old(answers)) && Quiet() && stream.Untouched()
      case Notification(known) =>
        NothingAnswered() && stream.Untouched() && if known.Some? then Tells(known.value) else Quiet()
      case Request(id, known) =>
        && NothingAnswered()
        && if known.Some? then stream.Untouched() && Tells(known.value)
           else stream.Tried(OutError(id), running) && if running then Quiet() else Ends("write failed")
      case Ignored => NothingAnswered() && stream.Untouched() && Quiet()
      case _ => NothingAnswered() && stream.Untouched() && Ends(EndReason(message).value)
    }

    twostate predicate NothingAnswered()
      reads this
    {
      pending == old(pending) && answers == old(answers)
    }

    /** The loop goes on and the consumer hears nothing. */
    twostate predicate Quiet()
      reads this, sink
    {
      running && sink.sent == old(sink.sent)
    }

    /** The consumer gets the event, and the loop goes on, as long as there is a consumer. */
    twostate predicate Tells(event: ServerEvent)
      reads this, sink
    {
      running == sink.open && sink.sent == old(sink.sent) + if running then [FromServer(event)] else []
    }

    twostate predicate Ends(reason: string)
      reads this, sink
    {
      !running && sink.sent == old(sink.sent) + if sink.open then [Disconnected(reason)] else []
    }

    /** Why the worker stops at a message, if it does. */
    static function EndReason(message: WireMessage): Option<string> {
      match message
      case Close(reason) => Some(if reason == "" then "connection closed" else reason)
      case InvalidText => Some("sent invalid JSON-RPC")
      case TransportFailed => Some("transport failed")
      case Ended => Some("closed the connection")
      case _ => None
    }

    /** A reply of the server reaches the caller waiting under its id and nobody else. */
    ghost predicate Resolves(id: RequestId, reply: Reply, before: map<RequestId, Waiter>, answered: seq<Answer>)
      reads this
    {
      && pending == before - {id}
      && answers == answered + if id in before then [Answer(before[id], Some(id), reply)] else []
    }

    ghost method HandledQuietly(message: WireMessage)
      requires Valid() && running && EventsOf(message) == []
      modifies this`handled
      ensures Valid() && handled == old(handled) + [message]
    {
      hide Settled;
      CarriedAppend(handled, message);
      AuthenticLater(answers, handled, message);
      handled := handled + [message];
      assert Carried(handled) == Carried(old(handled)) + [];
    }

    method DeliverKnown(message: WireMessage)
      requires Valid() && running && (message.Notification? || message.Request?)
      modifies this`running, this`handled, sink
      ensures Valid() && sink.taken == old(sink.taken)
      ensures handled == old(handled) + [message] || (!running && !sink.open && handled == old(handled))
      ensures if message.known.Some? then Tells(message.known.value) else Quiet()
    {
      hide Settled;
      CarriedAppend(handled, message);
      if message.known.None? {
        HandledQuietly(message);
        return;
      }
      var ok := sink.Deliver(FromServer(message.known.value));
      if ok {
        AuthenticLater(answers, handled, message);
        handled := handled + [message];
      } else {
        running := false;
      }
    }

    /** One turn of the loop. */
    method Turn(input: Input)
      requires Valid() && running && (input.Commanded? ==> input.command.waiter !in accepted)
      modifies this, stream, sink
      ensures Valid() && sink.taken == old(sink.taken)
      ensures accepted.Keys == old(accepted).Keys + Caller(input)
      ensures TurnDone(input)
      ensures stream.failures >= old(stream.failures) && (EndsLoop(input) ==> !running)
      ensures !running ==> EndsLoop(input) || !sink.open || stream.failures > old(stream.failures)
      ensures handled == old(handled) + Message(input) || (!running && !sink.open && handled == old(handled))
    {
      hide Settled, InOrder;
      match input {
        case Commanded(command) => HandleCommand(command);
        case CommandsClosed => CloseStream();
        case Received(message) => HandleMessage(message);
      }
    }

    twostate predicate TurnDone(input: Input)
      reads this, stream, sink
    {
      match input
      case Commanded(command) => CommandDone(command)
      case CommandsClosed => Closes() && NothingAnswered() && sink.sent == old(sink.sent)
      case Received(message) => MessageDone(message)
    }

    /** After the loop every caller still waiting is told that the worker is gone. */
    method Sweep()
      requires Valid() && !running
      modifies this`pending, this`answers
      ensures Valid() && pending == map[]
      ensures old(answers) <= answers && |answers| == |old(answers)| + |old(pending)|
      ensures forall i :: |old(answers)| <= i < |answers| ==> answers[i].reply == WorkerClosed
    {
      hide Settled, InOrder;
      while pending != map[]
        invariant Settled(accepted, answers, pending)
        invariant Authentic(answers, handled)
        invariant old(answers) <= answers && |answers| + |pending| == |old(answers)| + |old(pending)|
        invariant forall i :: |old(answers)| <= i < |answers| ==> answers[i].reply == WorkerClosed
        decreases |pending|
      {
        var id :| id in pending;
        ghost var before := pending;
        ReplyPending(id, WorkerClosed);
        assert before.Keys == pending.Keys + {id};
        assert |pending| < |before| by {
          assert |before.Keys| == |pending.Keys| + 1;
        }
      }
    }
  }

  /** Every caller that appears in the inputs is new. */
  ghost predicate FreshCallers(inputs: seq<Input>, accepted: map<Waiter, Option<RequestId>>) {
    && (forall i :: 0 <= i < |inputs| && inputs[i].Commanded? ==> inputs[i].command.waiter !in accepted)
    && forall i, j :: 0 <= i < j < |inputs| && inputs[i].Commanded? && inputs[j].Commanded? ==>
         inputs[i].command.waiter != inputs[j].command.waiter
  }

  function Caller(input: Input): set<Waiter> {
    if input.Commanded? then {input.command.waiter} else {}
  }

  function Message(input: Input): seq<WireMessage> {
    if input.Received? then [input.message] else []
  }

  function Callers(inputs: seq<Input>): set<Waiter> {
    set i | 0 <= i < |inputs| && inputs[i].Commanded? :: inputs[i].command.waiter
  }

  /** The inputs after which the loop does not go on, whatever succeeds. */
  predicate EndsLoop(input: Input) {
    match input
    case Commanded(command) => command.Shutdown?
    case CommandsClosed => true
    case Received(m) => m.Close? || m.InvalidText? || m.TransportFailed? || m.Ended?
  }

  function Messages(inputs: seq<Input>): seq<WireMessage> {
    if inputs == [] then [] else Messages(inputs[..|inputs| - 1]) + Message(inputs[|inputs| - 1])
  }

  lemma {:induction false} MessagesNext(inputs: seq<Input>, i: nat)
    requires i < |inputs|
    ensures Messages(inputs[..i + 1]) == Messages(inputs[..i]) + Message(inputs[i])
  {
    assert inputs[..i + 1][..i] == inputs[..i];
  }

  /**
   A whole run of the worker over any interleaving of commands and messages. Once the worker has stopped, each
   caller it took a command from has exactly one answer, and nothing waits. While it runs, each has at most one
   answer and at most one request per id is in flight. It stops at the inputs that end the loop, and at others only
   if a write failed or the consumer is gone.
   */
  method Run(worker: Worker, inputs: seq<Input>) returns (used: nat)
    requires worker.Valid() && worker.running && worker.accepted == map[] && FreshCallers(inputs, map[])
    requires worker.handled == []
    modifies worker, worker.stream, worker.sink
    ensures worker.Valid() && used <= |inputs| && (worker.running ==> used == |inputs|)
    ensures worker.accepted.Keys == Callers(inputs[..used])
    ensures worker.sink.taken == old(worker.sink.taken)
    ensures !worker.running ==> worker.pending == map[]
    ensures !worker.running ==>
      forall w :: w in Callers(inputs[..used]) ==> AnsweredOnce(w, worker.accepted, worker.answers)
    ensures OnePerId(worker.accepted, worker.answers)
    ensures worker.handled <= Messages(inputs[..used]) && (worker.running ==> worker.handled == Messages(inputs))
    ensures forall i :: 0 <= i < used && EndsLoop(inputs[i]) ==> i == used - 1 && !worker.running
    ensures !worker.running ==>
      && 0 < used
      && (|| EndsLoop(inputs[used - 1]) || !worker.sink.open
          || worker.stream.failures > old(worker.stream.failures))
  {
    hide Settled, InOrder, Authentic, Worker.TurnDone, EndsLoop, AnsweredOnce, OnePerId, FreshCallers;
    used := 0;
    while used < |inputs| && worker.running
      invariant worker.Valid() && used <= |inputs|
      invariant worker.accepted.Keys == Callers(inputs[..used])
      invariant worker.sink.taken == old(worker.sink.taken)
      invariant worker.handled <= Messages(inputs[..used])
      invariant worker.running ==> worker.handled == Messages(inputs[..used])
      invariant forall i :: 0 <= i < used && EndsLoop(inputs[i]) ==> i == used - 1 && !worker.running
      invariant worker.stream.failures >= old(worker.stream.failures)
      invariant !worker.running ==>
        && 0 < used
        && (|| EndsLoop(inputs[used - 1]) || !worker.sink.open
            || worker.stream.failures > old(worker.stream.failures))
    {
      var input := inputs[used];
      NextCaller(inputs, used);
      MessagesNext(inputs, used);
      worker.Turn(input);
      used := used + 1;
    }
    assert inputs[..|inputs|] == inputs;
    if !worker.running {
      worker.Sweep();
      forall w | w in worker.accepted ensures AnsweredOnce(w, worker.accepted, worker.answers) {
        ExactlyOnce(worker.accepted, worker.answers, w);
      }
    }
    OneInFlight(worker.accepted, worker.answers, worker.pending);
  }

  lemma {:induction false} NextCaller(inputs: seq<Input>, used: nat)
    requires used < |inputs| && FreshCallers(inputs, map[])
    ensures
      var input := inputs[used];
      && Callers(inputs[..used + 1]) == Callers(inputs[..used]) + Caller(input)
      && (input.Commanded? ==> input.command.waiter !in Callers(inputs[..used]))
  {
    var more, less := inputs[..used + 1], inputs[..used];
    assert more == less + [inputs[used]];
    forall w | w in Callers(more)
      ensures w in Callers(less) || (inputs[used].Commanded? && w == inputs[used].command.waiter)
    {
      var i :| 0 <= i < |more| && more[i].Commanded? && more[i].command.waiter == w;
      if i < used {
        assert less[i] == more[i];
      }
    }
    forall w | w in Callers(less) ensures w in Callers(more) {
      var i :| 0 <= i < |less| && less[i].Commanded? && less[i].command.waiter == w;
      assert more[i] == less[i];
    }
    if inputs[used].Commanded? {
      assert more[used].Commanded?;
    }
  }

  // ---------- the handshake and the consumer ----------

  datatype HandshakeError = NotWritten | InvalidResponse | Rejected | ClosedEarly | Transport | EndOfStream | TimedOut

  /** A message that ends the handshake. */
  predicate Decides(m: WireMessage) {
    || (m.Response? && m.id == INITIALIZE)
    || (m.ErrorReply? && m.id == INITIALIZE)
    || m.InvalidText? || m.Close? || m.TransportFailed? || m.Ended?
  }

  /** Everything but a reply to `initialize` and the end of the connection is passed over or kept for later. */
  lemma {:induction false} DecidesMeans(m: WireMessage)
    ensures !Decides(m) <==>
      || (m.Response? && m.id != Text("initialize")) || (m.ErrorReply? && m.id != Text("initialize"))
      || m.Notification? || m.Request? || m.Ignored?
    ensures Decides(m) && !m.Response? ==>
      && (Refusal(m) == Rejected <==> m.ErrorReply?)
      && (Refusal(m) == InvalidResponse <==> m == InvalidText)
      && (Refusal(m) == ClosedEarly <==> exists reason :: m == Close(reason))
      && (Refusal(m) == Transport <==> m == TransportFailed)
      && (Refusal(m) == EndOfStream <==> m == Ended)
  {}

  /** The last message used ends the handshake and no earlier one does. */
  ghost predicate FirstDecision(messages: seq<WireMessage>, used: nat) {
    0 < used <= |messages| && Decides(messages[used - 1]) && forall i :: 0 <= i < used - 1 ==> !Decides(messages[i])
  }

  /** The error replies to requests that the client does not know. */
  function Rejections(messages: seq<WireMessage>): seq<Outgoing> {
    if messages == [] then []
    else Rejections(messages[..|messages| - 1]) + RejectionOf(messages[|messages| - 1])
  }

  function RejectionOf(m: WireMessage): seq<Outgoing> {
    if m.Request? && m.known.None? then [OutError(m.id)] else []
  }

  lemma {:induction false} RejectionsAppend(messages: seq<WireMessage>, m: WireMessage)
    ensures Rejections(messages + [m]) == Rejections(messages) + RejectionOf(m)
  {
    assert (messages + [m])[..|messages|] == messages;
  }

  /**
   `initialize_remote_connection` over the messages that arrive before the timeout. On success it returns the
   events of everything before the first reply to `initialize`, in wire order.
   */
  method Initialize(stream: Stream, messages: seq<WireMessage>)
    returns (r: Basics.Result<seq<AppEvent>, HandshakeError>, used: nat)
    modifies stream
    ensures used <= |messages|
    ensures r.Ok? ==>
      && used > 0 && messages[used - 1].Response? && messages[used - 1].id == INITIALIZE
      && FirstDecision(messages, used)
      && r.value == Carried(messages[..used - 1])
      && stream.written == old(stream.written) + [OutRequest(INITIALIZE)] + Rejections(messages[..used - 1])
         + [OutNotification]
    ensures r.Err? && !r.error.NotWritten? && !r.error.TimedOut? ==>
      FirstDecision(messages, used) && !messages[used - 1].Response? && r.error == Refusal(messages[used - 1])
    ensures r == Err(TimedOut) ==> used == |messages| && forall i :: 0 <= i < |messages| ==> !Decides(messages[i])
    ensures stream.failures == old(stream.failures) + if r == Err(NotWritten) then 1 else 0
    ensures r == Err(NotWritten) ==>
      || (used == 0 && stream.written == old(stream.written))
      || (&& 0 < used
          && stream.written == old(stream.written) + [OutRequest(INITIALIZE)] + Rejections(messages[..used - 1])
          && ((FirstDecision(messages, used) && messages[used - 1].Response?) || RejectionOf(messages[used - 1]) != []))
    ensures r.Err? && !r.error.NotWritten? ==>
      stream.written == old(stream.written) + [OutRequest(INITIALIZE)] + Rejections(messages[..used])
  {
    hide Carried, EventsOf, Rejections;
    used := 0;
    var pendingEvents: seq<AppEvent> := [];
    ghost var rejected: seq<Outgoing> := [];
    NothingCarried();
    assert messages[..0] == [];
    var ok := stream.Write(OutRequest(INITIALIZE));
    if !ok {
      return Err(NotWritten), used;
    }
    while used < |messages|
      invariant used <= |messages|
      invariant forall i :: 0 <= i < used ==> !Decides(messages[i])
      invariant pendingEvents == Carried(messages[..used]) && rejected == Rejections(messages[..used])
      invariant stream.written == old(stream.written) + [OutRequest(INITIALIZE)] + rejected
      invariant stream.failures == old(stream.failures)
    {
      var message := messages[used];
      CarriedAppend(messages[..used], message);
      RejectionsAppend(messages[..used], message);
      assert messages[..used + 1] == messages[..used] + [message];
      used := used + 1;
      if Decides(message) {
        if !message.Response? {
          return Err(Refusal(message)), used;
        }
        ok := stream.Write(OutNotification);
        if !ok {
          return Err(NotWritten), used;
        }
        return Ok(pendingEvents), used;
      }
      if message.Request? && message.known.None? {
        ok := stream.Write(OutError(message.id));
        if !ok {
          return Err(NotWritten), used;
        }
      }
      rejected := rejected + RejectionOf(message);
      pendingEvents := pendingEvents + EventsOf(message);
    }
    r := Err(TimedOut);
  }

  lemma {:induction false} NothingCarried()
    ensures Carried([]) == [] && Rejections([]) == []
  {}

  function Refusal(m: WireMessage): HandshakeError {
    match m
    case ErrorReply(_, _) => Rejected
    case InvalidText => InvalidResponse
    case Close(_) => ClosedEarly
    case TransportFailed => Transport
    case _ => EndOfStream
  }

  /** The consumer's handle: handshake events first, then those of the worker. */
  class RemoteClient {
    const sink: EventSink
    var pendingEvents: seq<AppEvent>
    ghost const handshake: seq<AppEvent>
    ghost var seen: seq<AppEvent>

    ghost predicate Valid()
      reads this, sink
    {
      && sink.Valid()
      && seen + pendingEvents == handshake + sink.taken
      && (pendingEvents != [] ==> sink.taken == [])
    }

    constructor (sink: EventSink, events: seq<AppEvent>)
      requires sink.Valid() && sink.taken == []
      ensures Valid() && this.sink == sink && seen == [] && handshake == events
    {
      this.sink := sink;
      pendingEvents := events;
      handshake, seen := events, [];
      new;
      assert seen + pendingEvents == handshake + sink.taken;
    }

    /** `next_event`; `None` stands for waiting or the end of the stream. */
    method NextEvent() returns (event: Option<AppEvent>)
      requires Valid()
      modifies this`pendingEvents, this`seen, sink`queue, sink`taken
      ensures Valid()
      ensures seen == old(seen) + if event.Some? then [event.value] else []
      ensures event.None? ==> old(pendingEvents) == [] && sink.queue == []
      ensures seen <= handshake + sink.sent
    {
      if pendingEvents != [] {
        event := Some(pendingEvents[0]);
        assert seen + [pendingEvents[0]] + pendingEvents[1..] == seen + pendingEvents;
        seen := seen + [pendingEvents[0]];
        pendingEvents := pendingEvents[1..];
      } else {
        event := sink.Take();
        ghost var more := if event.Some? then [event.value] else [];
        assert sink.taken == old(sink.taken) + more;
        assert seen + more + [] == handshake + old(sink.taken) + more;
        seen := seen + more;
      }
      SeenPrefix(seen, pendingEvents, handshake, sink.taken, sink.queue);
    }
  }

  lemma {:induction false} SeenPrefix(
    seen: seq<AppEvent>, waiting: seq<AppEvent>, handshake: seq<AppEvent>, taken: seq<AppEvent>, queue: seq<AppEvent>)
    requires seen + waiting == handshake + taken
    ensures seen <= handshake + (taken + queue)
  {
    assert handshake + (taken + queue) == seen + (waiting + queue) by {
      assert handshake + (taken + queue) == (handshake + taken) + queue;
    }
  }

  /** A turn of the worker or a read of the consumer. */
  datatype Moment = WorkerTurn(input: Input) | ConsumerRead

  function CallerAt(m: Moment): set<Waiter> {
    if m.WorkerTurn? then Caller(m.input) else {}
  }

  ghost predicate FreshMoments(moments: seq<Moment>, taken: set<Waiter>) {
    && (forall i :: 0 <= i < |moments| ==> CallerAt(moments[i]) !! taken)
    && forall i, j :: 0 <= i < j < |moments| ==> CallerAt(moments[i]) !! CallerAt(moments[j])
  }

  lemma {:induction false} FreshLater(moments: seq<Moment>, i: nat, taken: set<Waiter>, taken': set<Waiter>)
    requires i < |moments| && FreshMoments(moments[i..], taken) && taken' <= taken + CallerAt(moments[i])
    ensures FreshMoments(moments[i + 1..], taken')
  {
    var now, later := moments[i..], moments[i + 1..];
    forall k | 0 <= k < |later| ensures CallerAt(later[k]) !! taken' {
      assert later[k] == now[k + 1];
      assert CallerAt(now[0]) !! CallerAt(now[k + 1]);
    }
    forall k, l | 0 <= k < l < |later| ensures CallerAt(later[k]) !! CallerAt(later[l]) {
      assert later[k] == now[k + 1] && later[l] == now[l + 1];
    }
  }

  /** The messages that reach the worker, in order. */
  function Arrived(moments: seq<Moment>): seq<WireMessage> {
    if moments == [] then []
    else
      var last := moments[|moments| - 1];
      Arrived(moments[..|moments| - 1]) + if last.WorkerTurn? then Message(last.input) else []
  }

  lemma {:induction false} ArrivedNext(moments: seq<Moment>, i: nat)
    requires i < |moments|
    ensures Arrived(moments[..i + 1]) ==
            Arrived(moments[..i]) + if moments[i].WorkerTurn? then Message(moments[i].input) else []
  {
    assert moments[..i + 1][..i] == moments[..i];
  }

  /** Reads until nothing waits. */
  method ReadAll(client: RemoteClient) returns (events: seq<AppEvent>)
    requires client.Valid()
    modifies client`pendingEvents, client`seen, client.sink`queue, client.sink`taken
    ensures client.Valid() && client.pendingEvents == [] && client.sink.queue == []
    ensures client.seen == old(client.seen) + events
  {
    events := [];
    while client.pendingEvents != [] || client.sink.queue != []
      invariant client.Valid() && client.seen == old(client.seen) + events
      decreases |client.pendingEvents| + |client.sink.queue|
    {
      var event := client.NextEvent();
      events := events + if event.Some? then [event.value] else [];
    }
  }

  function CallersAt(moments: seq<Moment>): set<Waiter> {
    set i, w | 0 <= i < |moments| && w in CallerAt(moments[i]) :: w
  }

  lemma {:induction false} CallersNext(moments: seq<Moment>, i: nat)
    requires i < |moments|
    ensures CallersAt(moments[..i + 1]) == CallersAt(moments[..i]) + CallerAt(moments[i])
  {
    var less, more := moments[..i], moments[..i + 1];
    assert more == less + [moments[i]];
    forall w | w in CallersAt(less) ensures w in CallersAt(more) {
      var k :| 0 <= k < |less| && w in CallerAt(less[k]);
      assert more[k] == less[k];
    }
    assert more[i] == moments[i];
  }

  predicate EndsAt(m: Moment) {
    m.WorkerTurn? && EndsLoop(m.input)
  }

  /** How far a connection has come after some moments: callers, messages and, once the worker has stopped, why. */
  ghost predicate Underway(worker: Worker, moments: seq<Moment>, n: nat)
    requires n <= |moments|
    reads worker, worker.stream`failures, worker.sink`open
  {
    && worker.handled <= Arrived(moments[..n]) && worker.accepted.Keys <= CallersAt(moments[..n])
    && if worker.running then
         && worker.handled == Arrived(moments[..n]) && worker.accepted.Keys == CallersAt(moments[..n])
         && forall i :: 0 <= i < n ==> !EndsAt(moments[i])
       else
         || worker.stream.failures > 0 || !worker.sink.open
         || exists i :: 0 <= i < n && EndsAt(moments[i])
  }

  /** One moment of a connection. */
  method Pass(worker: Worker, client: RemoteClient, moments: seq<Moment>, i: nat)
    returns (events: seq<AppEvent>)
    requires worker.Valid() && client.Valid() && client.sink == worker.sink && i < |moments|
    requires Underway(worker, moments, i) && FreshMoments(moments[i..], worker.accepted.Keys)
    modifies worker, worker.stream, worker.sink, client
    ensures worker.Valid() && client.Valid() && client.seen == old(client.seen) + events
    ensures Underway(worker, moments, i + 1) && FreshMoments(moments[i + 1..], worker.accepted.Keys)
  {
    hide Settled, InOrder, Authentic, Carried, FreshMoments, Arrived, CallersAt, Worker.TurnDone, EndsLoop;
    ghost var before := worker.accepted.Keys;
    NowFresh(moments, i, before);
    ArrivedNext(moments, i);
    CallersNext(moments, i);
    events := [];
    match moments[i] {
      case WorkerTurn(input) =>
        if worker.running {
          worker.Turn(input);
        }
      case ConsumerRead =>
        var event := client.NextEvent();
        events := if event.Some? then [event.value] else [];
    }
    FreshLater(moments, i, before, worker.accepted.Keys);
  }

  /**
   A connection from the handshake on, with the consumer reading at any moments between the worker's turns and
   then whatever is left. It sees the events of the handshake and then those of the messages that the worker
   handled, in wire order, with at most one disconnect after all of them, and misses none unless it went away.
   A worker that still runs has handled every message and accepted every caller; one that has stopped has answered
   those it accepted, once each. It stops only for an input that ends the loop, a failed write or a consumer that
   is gone; and without a connection the handshake was refused, ran out of time, or could not be written.
   */
  method Session(messages: seq<WireMessage>, moments: seq<Moment>)
    returns (connected: Basics.Result<(), HandshakeError>, seen: seq<AppEvent>, open: bool, running: bool,
             ghost handshake: seq<WireMessage>, ghost handled: seq<WireMessage>,
             ghost accepted: map<Waiter, Option<RequestId>>, ghost answers: seq<Answer>, ghost failures: nat)
    requires FreshMoments(moments, {})
    ensures connected.Ok? ==>
      && FirstDecision(messages, |handshake| + 1) && handshake == messages[..|handshake|]
      && messages[|handshake|].Response?
    ensures match connected
            case Err(NotWritten) => failures > 0
            case Err(TimedOut) => forall i :: 0 <= i < |messages| ==> !Decides(messages[i])
            case Err(e) => exists used :: FirstDecision(messages, used) && e == Refusal(messages[used - 1])
            case Ok(_) => true
    ensures connected.Ok? ==>
      && handled <= Arrived(moments) && accepted.Keys <= CallersAt(moments)
      && (running ==> handled == Arrived(moments) && accepted.Keys == CallersAt(moments))
      && (!running ==> failures > 0 || !open || exists i :: 0 <= i < |moments| && EndsAt(moments[i]))
      && (!running ==> forall w :: w in accepted ==> AnsweredOnce(w, accepted, answers))
    ensures connected.Ok? ==>
      && SeenInOrder(seen, Carried(handshake) + Carried(handled))
      && Carried(handshake) <= seen && (open ==> Carried(handshake) + Carried(handled) <= seen)
  {
    hide Settled, InOrder, Authentic, Carried, FreshMoments, Arrived, Underway, CallersAt, FirstDecision, Decides;
    hide AnsweredOnce, EndsAt;
    seen, open, running, handshake, handled, accepted, answers := [], false, false, [], [], map[], [];
    var stream := new Stream();
    var initialized, used := Initialize(stream, messages);
    failures := stream.failures;
    if initialized.Err? {
      connected := Err(initialized.error);
      return;
    }
    connected := Ok(());
    handshake := messages[..used - 1];
    var worker := new Worker(stream);
    var client := new RemoteClient(worker.sink, initialized.value);
    Begins(worker, moments);
    for i := 0 to |moments|
      invariant worker.Valid() && client.Valid() && client.sink == worker.sink && worker.stream == stream
      invariant FreshMoments(moments[i..], worker.accepted.Keys) && Underway(worker, moments, i)
      invariant seen == client.seen && client.handshake == initialized.value
      invariant fresh(worker) && fresh(worker.stream) && fresh(worker.sink) && fresh(client)
    {
      var events := Pass(worker, client, moments, i);
      seen := seen + events;
    }
    var rest := ReadAll(client);
    seen := seen + rest;
    Finish(worker, moments);
    if !worker.running {
      worker.Sweep();
      forall w | w in worker.accepted ensures AnsweredOnce(w, worker.accepted, worker.answers) {
        ExactlyOnce(worker.accepted, worker.answers, w);
      }
    }
    open, running, handled, failures := worker.sink.open, worker.running, worker.handled, stream.failures;
    accepted, answers := worker.accepted, worker.answers;
    assert seen == client.handshake + worker.sink.sent by {
      NothingWaits(client.seen, client.handshake, worker.sink.taken, worker.sink.sent);
    }
    ConsumerOrder(handshake, handled, worker.sink.sent, worker.running, worker.sink.open, seen);
    if open {
      AllCarried(Carried(handshake), worker.sink.sent, handled, worker.running);
    }
  }

  lemma {:induction false} Begins(worker: Worker, moments: seq<Moment>)
    requires worker.running && worker.handled == [] && worker.accepted == map[]
    ensures Underway(worker, moments, 0) && moments[0..] == moments && worker.accepted.Keys == {}
  {
    assert moments[..0] == [];
  }

  lemma {:induction false} Finish(worker: Worker, moments: seq<Moment>)
    requires Underway(worker, moments, |moments|)
    ensures worker.handled <= Arrived(moments) && worker.accepted.Keys <= CallersAt(moments)
    ensures worker.running ==> worker.handled == Arrived(moments) && worker.accepted.Keys == CallersAt(moments)
    ensures !worker.running ==>
      || worker.stream.failures > 0 || !worker.sink.open
      || exists i :: 0 <= i < |moments| && EndsAt(moments[i])
  {
    assert moments[..|moments|] == moments;
  }

  lemma {:induction false} NothingWaits(
    seen: seq<AppEvent>, handshake: seq<AppEvent>, taken: seq<AppEvent>, sent: seq<AppEvent>)
    requires seen + [] == handshake + taken && taken + [] == sent
    ensures seen == handshake + sent
  {
    assert seen + [] == seen && taken + [] == taken;
  }

  lemma {:induction false} AllCarried(
    handshake: seq<AppEvent>, sent: seq<AppEvent>, handled: seq<WireMessage>, running: bool)
    requires InOrder(sent, handled, running, true)
    ensures handshake + Carried(handled) <= handshake + sent
  {
    hide Carried;
    if Disconnects(sent) && sent[..|sent| - 1] == Carried(handled) {
      assert handshake + sent == handshake + Carried(handled) + [sent[|sent| - 1]];
    }
  }

  lemma {:induction false} NowFresh(moments: seq<Moment>, i: nat, taken: set<Waiter>)
    requires i < |moments| && FreshMoments(moments[i..], taken)
    ensures CallerAt(moments[i]) !! taken
  {
    assert moments[i..][0] == moments[i];
  }
}
