/** Messages, commands and logs of the remote app-server client (`app-server-client/src/remote.rs`). */
module RemoteProtocol {
  import opened Basics

  datatype RequestId = Text(text: string) | Number(number: int)

  const INITIALIZE := Text("initialize")

  /** What the server tells the consumer. */
  datatype ServerEvent = ServerNotification(payload: string) | ServerRequest(id: RequestId, payload: string)

  datatype AppEvent = FromServer(event: ServerEvent) | Disconnected(reason: string)

  /** A decoded websocket message; `None` events are notifications or requests that the client does not know. */
  datatype WireMessage =
    | Response(id: RequestId, result: string)
    | ErrorReply(id: RequestId, error: string)
    | Notification(known: Option<ServerEvent>)
    | Request(id: RequestId, known: Option<ServerEvent>)
    | InvalidText
    | Close(reason: string)
    | Ignored
    | TransportFailed
    | Ended

  /** One caller waiting on its own reply channel. */
  type Waiter = nat

  datatype Command =
    | SendRequest(id: RequestId, waiter: Waiter)
    | Notify(waiter: Waiter)
    | ResolveServerRequest(id: RequestId, waiter: Waiter)
    | RejectServerRequest(id: RequestId, waiter: Waiter)
    | Shutdown(waiter: Waiter)

  datatype Input = Commanded(command: Command) | CommandsClosed | Received(message: WireMessage)

  datatype Reply =
    | Result(result: string)
    | ServerError(error: string)
    | DuplicateId
    | WriteFailed
    | Written
    | WorkerClosed

  datatype Answer = Answer(waiter: Waiter, id: Option<RequestId>, reply: Reply)

  datatype Outgoing =
    | OutRequest(id: RequestId)
    | OutNotification
    | OutResult(id: RequestId)
    | OutError(id: RequestId)
    | OutClose

  /** The events that a message carries for the consumer. */
  function EventsOf(m: WireMessage): seq<AppEvent> {
    if (m.Notification? || m.Request?) && m.known.Some? then [FromServer(m.known.value)] else []
  }

  function Carried(messages: seq<WireMessage>): seq<AppEvent> {
    if messages == [] then [] else Carried(messages[..|messages| - 1]) + EventsOf(messages[|messages| - 1])
  }

  lemma {:induction false} CarriedAppend(messages: seq<WireMessage>, m: WireMessage)
    ensures Carried(messages + [m]) == Carried(messages) + EventsOf(m)
  {
    assert (messages + [m])[..|messages|] == messages;
  }

  lemma {:induction false} CarriedAreServerEvents(messages: seq<WireMessage>)
    ensures forall i :: 0 <= i < |Carried(messages)| ==> Carried(messages)[i].FromServer?
  {
    if messages != [] {
      CarriedAreServerEvents(messages[..|messages| - 1]);
    }
  }

  // ---------- answering exactly once ----------

  ghost predicate Answered(w: Waiter, answers: seq<Answer>) {
    exists i :: 0 <= i < |answers| && answers[i].waiter == w
  }

  ghost predicate NoneTwice(answers: seq<Answer>) {
    forall i, j :: 0 <= i < j < |answers| ==> answers[i].waiter != answers[j].waiter
  }

  /** Answers go to callers that asked, under the id they asked with; only requests are answered by the server. */
  ghost predicate Addressed(accepted: map<Waiter, Option<RequestId>>, answers: seq<Answer>) {
    forall i :: 0 <= i < |answers| ==>
      && answers[i].waiter in accepted && accepted[answers[i].waiter] == answers[i].id
      && (answers[i].reply.Result? || answers[i].reply.ServerError? ==> answers[i].id.Some?)
  }

  /** What waits under an id asked with that id and has no answer yet. */
  ghost predicate Waiting(
    accepted: map<Waiter, Option<RequestId>>, answers: seq<Answer>, pending: map<RequestId, Waiter>)
  {
    forall id :: id in pending ==>
      pending[id] in accepted && accepted[pending[id]] == Some(id) && !Answered(pending[id], answers)
  }

  ghost predicate IsPending(w: Waiter, id: Option<RequestId>, pending: map<RequestId, Waiter>) {
    id.Some? && id.value in pending && pending[id.value] == w
  }

  ghost predicate NoneForgotten(
    accepted: map<Waiter, Option<RequestId>>, answers: seq<Answer>, pending: map<RequestId, Waiter>)
  {
    forall w :: w in accepted ==> Answered(w, answers) || IsPending(w, accepted[w], pending)
  }

  /** Every accepted caller is either answered, once, or waits under its own id. */
  ghost predicate Settled(
    accepted: map<Waiter, Option<RequestId>>, answers: seq<Answer>, pending: map<RequestId, Waiter>)
  {
    && NoneTwice(answers)
    && Addressed(accepted, answers)
    && Waiting(accepted, answers, pending)
    && NoneForgotten(accepted, answers, pending)
  }

  /** What the server is said to have answered came from it under that id. */
  ghost predicate Authentic(answers: seq<Answer>, handled: seq<WireMessage>) {
    forall i :: 0 <= i < |answers| ==>
      match answers[i]
      case Answer(_, Some(id), Result(result)) => Response(id, result) in handled
      case Answer(_, Some(id), ServerError(error)) => ErrorReply(id, error) in handled
      case _ => true
  }

  lemma {:induction false} AuthenticLater(answers: seq<Answer>, handled: seq<WireMessage>, m: WireMessage)
    requires Authentic(answers, handled)
    ensures Authentic(answers, handled + [m])
  {}

  lemma {:induction false} AnsweredAppend(w: Waiter, answers: seq<Answer>, a: Answer)
    ensures Answered(w, answers + [a]) <==> Answered(w, answers) || w == a.waiter
  {
    var more := answers + [a];
    assert more[|answers|] == a;
    if Answered(w, answers) {
      var i :| 0 <= i < |answers| && answers[i].waiter == w;
      assert more[i].waiter == w;
    }
  }

  /** A new caller that is answered at once. */
  lemma {:induction false} SettledAtOnce(
    accepted: map<Waiter, Option<RequestId>>, answers: seq<Answer>, pending: map<RequestId, Waiter>,
    w: Waiter, id: Option<RequestId>, reply: Reply)
    requires Settled(accepted, answers, pending) && w !in accepted && !reply.Result? && !reply.ServerError?
    ensures Settled(accepted[w := id], answers + [Answer(w, id, reply)], pending)
  {
    forall v ensures Answered(v, answers + [Answer(w, id, reply)]) <==> Answered(v, answers) || v == w {
      AnsweredAppend(v, answers, Answer(w, id, reply));
    }
  }

  /** A new caller that waits under a free id. */
  lemma {:induction false} SettledWaiting(
    accepted: map<Waiter, Option<RequestId>>, answers: seq<Answer>, pending: map<RequestId, Waiter>,
    w: Waiter, id: RequestId)
    requires Settled(accepted, answers, pending) && w !in accepted && id !in pending
    ensures Settled(accepted[w := Some(id)], answers, pending[id := w])
  {
    assert !Answered(w, answers) by {
      forall i | 0 <= i < |answers| ensures answers[i].waiter != w {}
    }
  }

  /** A waiting caller that is answered. */
  lemma {:induction false} SettledAnswer(
    accepted: map<Waiter, Option<RequestId>>, answers: seq<Answer>, pending: map<RequestId, Waiter>,
    id: RequestId, reply: Reply)
    requires Settled(accepted, answers, pending) && id in pending
    ensures Settled(accepted, answers + [Answer(pending[id], Some(id), reply)], pending - {id})
  {
    var w := pending[id];
    forall v ensures Answered(v, answers + [Answer(w, Some(id), reply)]) <==> Answered(v, answers) || v == w {
      AnsweredAppend(v, answers, Answer(w, Some(id), reply));
    }
    forall i | 0 <= i < |answers| ensures answers[i].waiter != w {}
  }

  /** One answer and no more, under the id that was asked with. */
  ghost predicate AnsweredOnce(w: Waiter, accepted: map<Waiter, Option<RequestId>>, answers: seq<Answer>) {
    exists i ::
      && 0 <= i < |answers| && answers[i].waiter == w && w in accepted && answers[i].id == accepted[w]
      && forall j :: 0 <= j < |answers| && j != i ==> answers[j].waiter != w
  }

  /** When nothing waits any more, every caller has exactly one answer, addressed to it. */
  lemma {:induction false} ExactlyOnce(
    accepted: map<Waiter, Option<RequestId>>, answers: seq<Answer>, w: Waiter)
    requires Settled(accepted, answers, map[]) && w in accepted
    ensures AnsweredOnce(w, accepted, answers)
  {
    assert !IsPending(w, accepted[w], map[]);
    var i :| 0 <= i < |answers| && answers[i].waiter == w;
    forall j | 0 <= j < |answers| && j != i ensures answers[j].waiter != w {
      if j < i {
        assert answers[j].waiter != answers[i].waiter;
      }
    }
  }

  /** At most one request per id is in flight. */
  ghost predicate OnePerId(accepted: map<Waiter, Option<RequestId>>, answers: seq<Answer>) {
    forall v, w :: v in accepted && w in accepted && !Answered(v, answers) && !Answered(w, answers) ==>
      accepted[v].Some? && (accepted[v] == accepted[w] ==> v == w)
  }

  lemma {:induction false} OneInFlight(
    accepted: map<Waiter, Option<RequestId>>, answers: seq<Answer>, pending: map<RequestId, Waiter>)
    requires Settled(accepted, answers, pending)
    ensures OnePerId(accepted, answers)
  {
    forall w | w in accepted && !Answered(w, answers) ensures IsPending(w, accepted[w], pending) {}
  }

  // ---------- the order in which the consumer sees events ----------

  /** Server events in wire order, then at most one disconnect. */
  ghost predicate InOrder(sent: seq<AppEvent>, messages: seq<WireMessage>, running: bool, open: bool) {
    || (running && sent == Carried(messages))
    || (!running && sent <= Carried(messages) && (open ==> sent == Carried(messages)))
    || (!running && Disconnects(sent) && sent[..|sent| - 1] == Carried(messages))
  }

  predicate Disconnects(sent: seq<AppEvent>) {
    sent != [] && sent[|sent| - 1].Disconnected?
  }

  /** Part of the events in order, or all of them and then a disconnect. */
  ghost predicate SeenInOrder(seen: seq<AppEvent>, whole: seq<AppEvent>) {
    seen <= whole || (Disconnects(seen) && seen[..|seen| - 1] == whole)
  }

  /** A part of the events in order holds no disconnect. */
  lemma {:induction false} PartOrder(
    before: seq<AppEvent>, carried: seq<AppEvent>, sent: seq<AppEvent>, seen: seq<AppEvent>)
    requires forall k :: 0 <= k < |before + carried| ==> (before + carried)[k].FromServer?
    requires sent <= carried && seen <= before + sent
    ensures seen <= before + carried
    ensures forall i :: 0 <= i < |seen| ==> !seen[i].Disconnected?
  {
    assert before + sent <= before + carried;
    forall i | 0 <= i < |seen| ensures !seen[i].Disconnected? {
      assert seen[i] == (before + carried)[i];
    }
  }

  /** With a disconnect after all events, what was seen is a part of the events or everything. */
  lemma {:induction false} WholeOrder(
    before: seq<AppEvent>, carried: seq<AppEvent>, last: AppEvent, seen: seq<AppEvent>)
    requires forall k :: 0 <= k < |before + carried| ==> (before + carried)[k].FromServer?
    requires last.Disconnected? && seen <= before + carried + [last]
    ensures SeenInOrder(seen, before + carried)
    ensures forall i :: 0 <= i < |seen| && seen[i].Disconnected? ==> i == |seen| - 1
  {
    var whole := before + carried;
    if |seen| <= |whole| {
      assert seen == whole[..|seen|];
    } else {
      assert seen == whole + [last] && seen[..|seen| - 1] == whole;
    }
  }

  /** A worker that has sent a disconnect has stopped. */
  lemma {:induction false} NoServerEvents(sent: seq<AppEvent>, carried: seq<AppEvent>, running: bool)
    requires forall k :: 0 <= k < |carried| ==> carried[k].FromServer?
    requires Disconnects(sent) && (running ==> sent == carried)
    ensures !running
  {}

  /**
   What a consumer has seen: a part of the handshake and then of what the worker sent,
   and nothing after a disconnect.
   */
  lemma {:induction false} ConsumerOrder(
    handshake: seq<WireMessage>, messages: seq<WireMessage>, sent: seq<AppEvent>, running: bool, open: bool,
    seen: seq<AppEvent>)
    requires InOrder(sent, messages, running, open) && seen <= Carried(handshake) + sent
    ensures forall i :: 0 <= i < |seen| && seen[i].Disconnected? ==> i == |seen| - 1 && !running
    ensures SeenInOrder(seen, Carried(handshake) + Carried(messages))
  {
    hide Carried;
    var before, carried := Carried(handshake), Carried(messages);
    CarriedAreServerEvents(handshake);
    CarriedAreServerEvents(messages);
    var whole: seq<AppEvent> := before + carried;
    assert forall k :: 0 <= k < |whole| ==> whole[k].FromServer?;
    if Disconnects(sent) && sent[..|sent| - 1] == carried {
      var last := sent[|sent| - 1];
      assert before + sent == before + carried + [last];
      NoServerEvents(sent, carried, running);
      WholeOrder(before, carried, last, seen);
    } else {
      PartOrder(before, carried, sent, seen);
    }
  }
}
