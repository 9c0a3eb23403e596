/** Events of the embedded app server and their two delivery tiers (`app-server-client/src/lib.rs`). */
module Events {

  datatype Notification =
    | TurnCompleted(payload: string)
    | ItemCompleted(payload: string)
    | AgentMessageDelta(payload: string)
    | PlanDelta(payload: string)
    | ReasoningSummaryTextDelta(payload: string)
    | ReasoningTextDelta(payload: string)
    | OtherNotification(name: string, payload: string)
  {
    /** `server_notification_requires_delivery`. */
    predicate RequiresDelivery() {
      TurnCompleted? || ItemCompleted? || AgentMessageDelta? || PlanDelta? || ReasoningSummaryTextDelta?
      || ReasoningTextDelta?
    }
  }

  datatype ServerRequest =
    | ChatgptAuthTokensRefresh(id: string)
    | OtherRequest(id: string, name: string, payload: string)

  datatype Event =
    | Lagged(skipped: nat)
    | Notified(notification: Notification)
    | Requested(request: ServerRequest)
  {
    /** `event_requires_delivery`. */
    predicate RequiresDelivery() {
      Notified? && notification.RequiresDelivery()
    }
  }

  /** What may be dropped: lag, requests, and the notifications outside the transcript that complete nothing. */
  lemma {:induction false} BestEffortMeans(e: Event)
    ensures !e.RequiresDelivery() <==>
      || (exists n :: e == Lagged(n))
      || (exists request :: e == Requested(request))
      || (exists name, payload :: e == Notified(OtherNotification(name, payload)))
  {
    if e.Notified? && e.notification.OtherNotification? {
      assert e == Notified(OtherNotification(e.notification.name, e.notification.payload));
    }
  }
}

/** What the consumer of a lossy stream can conclude from it. */
module Slots {
  import opened Basics
  import opened Events

  /** An item put on the stream: an event handed through, or a lag marker made by the forwarder. */
  datatype Item = Passed(event: Event) | Marker(skipped: nat)

  /** What travels on the channel; a marker looks like a lag event of the runtime. */
  function Wire(log: seq<Item>): (w: seq<Event>)
    ensures |w| == |log|
  {
    if log == [] then []
    else Wire(log[..|log| - 1]) + [match log[|log| - 1] case Passed(e) => e case Marker(n) => Lagged(n)]
  }

  function Holes(n: nat): (h: seq<Option<Event>>)
    ensures |h| == n
  {
    seq(n, i => None)
  }

  /** One slot for each passed event, `n` holes for a marker of `n`. */
  function SlotsOf(log: seq<Item>): seq<Option<Event>> {
    if log == [] then []
    else SlotsOf(log[..|log| - 1]) + match log[|log| - 1] case Passed(e) => [Some(e)] case Marker(n) => Holes(n)
  }

  /** Position by position: a slot repeats the input, a hole covers a best-effort one. */
  ghost predicate Aligned(slots: seq<Option<Event>>, inputs: seq<Event>) {
    && |slots| == |inputs|
    && forall i :: 0 <= i < |slots| ==>
         match slots[i] case Some(e) => inputs[i] == e case None => !inputs[i].RequiresDelivery()
  }

  function PassedEvents(log: seq<Item>): seq<Event> {
    if log == [] then []
    else
      PassedEvents(log[..|log| - 1]) + match log[|log| - 1] case Passed(e) => [e] case Marker(_) => []
  }

  function Lossless(events: seq<Event>): seq<Event> {
    if events == [] then []
    else
      Lossless(events[..|events| - 1]) + if events[|events| - 1].RequiresDelivery() then [events[|events| - 1]] else []
  }

  function Requests(events: seq<Event>): multiset<ServerRequest> {
    if events == [] then multiset{}
    else Requests(events[..|events| - 1]) + RequestOf(events[|events| - 1])
  }

  function RequestOf(e: Event): multiset<ServerRequest> {
    if e.Requested? then multiset{e.request} else multiset{}
  }

  const USIZE_MAX: nat := 0xFFFF_FFFF_FFFF_FFFF

  /** `usize::saturating_add(1)`. */
  function Bump(n: nat): nat {
    if n < USIZE_MAX then n + 1 else n
  }

  /** The counter goes up by one below its greatest value, where it stays. */
  lemma {:induction false} BumpMeans(n: nat, m: nat)
    requires n < 0x1_0000_0000_0000_0000
    ensures Bump(n) == m <==> (m == n + 1 && m < 0x1_0000_0000_0000_0000) || (n == m == 0xFFFF_FFFF_FFFF_FFFF)
  {}

  /** Positions: sent slots and then the skipped holes line up with the inputs. */
  ghost predicate Positioned(inputs: seq<Event>, skipped: nat, log: seq<Item>) {
    skipped <= |inputs| && (|inputs| <= USIZE_MAX ==> Aligned(SlotsOf(log) + Holes(skipped), inputs))
  }

  /** Tiers: every lossless input was sent, in order. */
  ghost predicate Delivered(inputs: seq<Event>, log: seq<Item>) {
    Lossless(PassedEvents(log)) == Lossless(inputs)
  }

  /** Requests: each was sent once or rejected once. */
  ghost predicate Answered(inputs: seq<Event>, log: seq<Item>, rejected: multiset<ServerRequest>) {
    Requests(PassedEvents(log)) + rejected == Requests(inputs)
  }

  ghost predicate Marked(log: seq<Item>) {
    forall i :: 0 <= i < |log| && log[i].Marker? ==> log[i].skipped > 0
  }

  /** The account of a stream: what went in against what was sent, is still skipped, and was rejected. */
  ghost predicate Account(inputs: seq<Event>, skipped: nat, log: seq<Item>, rejected: multiset<ServerRequest>) {
    && Positioned(inputs, skipped, log)
    && Delivered(inputs, log)
    && Answered(inputs, log, rejected)
    && Marked(log)
  }

  lemma {:induction false} LosslessAppend(events: seq<Event>, e: Event)
    ensures Lossless(events + [e]) == Lossless(events) + if e.RequiresDelivery() then [e] else []
    ensures Requests(events + [e]) == Requests(events) + RequestOf(e)
  {
    assert (events + [e])[..|events|] == events;
  }

  lemma {:induction false} LogAppend(log: seq<Item>, item: Item)
    ensures SlotsOf(log + [item]) == SlotsOf(log) + match item case Passed(e) => [Some(e)] case Marker(n) => Holes(n)
    ensures PassedEvents(log + [item]) == PassedEvents(log) + match item case Passed(e) => [e] case Marker(_) => []
    ensures Wire(log + [item]) == Wire(log) + [match item case Passed(e) => e case Marker(n) => Lagged(n)]
  {
    assert (log + [item])[..|log|] == log;
  }

  /** Surfacing the lag turns the trailing holes into a marker. */
  lemma {:induction false} SurfaceKeeps(
    inputs: seq<Event>, skipped: nat, log: seq<Item>, rejected: multiset<ServerRequest>)
    requires Account(inputs, skipped, log, rejected) && skipped > 0
    ensures Account(inputs, 0, log + [Marker(skipped)], rejected)
  {
    LogAppend(log, Marker(skipped));
    NoEvent(PassedEvents(log));
    assert SlotsOf(log + [Marker(skipped)]) + Holes(0) == SlotsOf(log) + Holes(skipped);
  }

  lemma {:induction false} NoEvent(events: seq<Event>)
    ensures events + [] == events
  {}

  /** With no lag outstanding, passing an event keeps the account. */
  lemma {:induction false} PassKeeps(inputs: seq<Event>, log: seq<Item>, rejected: multiset<ServerRequest>, e: Event)
    requires Account(inputs, 0, log, rejected)
    ensures Account(inputs + [e], 0, log + [Passed(e)], rejected)
  {
    PassPositioned(inputs, log, e);
    PassDelivered(inputs, log, e);
    PassAnswered(inputs, log, rejected, e);
  }

  lemma {:induction false} PassPositioned(inputs: seq<Event>, log: seq<Item>, e: Event)
    requires Positioned(inputs, 0, log)
    ensures Positioned(inputs + [e], 0, log + [Passed(e)])
  {
    LogAppend(log, Passed(e));
    assert SlotsOf(log) + Holes(0) == SlotsOf(log);
    assert SlotsOf(log + [Passed(e)]) + Holes(0) == SlotsOf(log) + [Some(e)];
  }

  lemma {:induction false} PassDelivered(inputs: seq<Event>, log: seq<Item>, e: Event)
    requires Delivered(inputs, log)
    ensures Delivered(inputs + [e], log + [Passed(e)])
  {
    LogAppend(log, Passed(e));
    LosslessAppend(inputs, e);
    LosslessAppend(PassedEvents(log), e);
  }

  lemma {:induction false} PassAnswered(
    inputs: seq<Event>, log: seq<Item>, rejected: multiset<ServerRequest>, e: Event)
    requires Answered(inputs, log, rejected)
    ensures Answered(inputs + [e], log + [Passed(e)], rejected)
  {
    LogAppend(log, Passed(e));
    LosslessAppend(inputs, e);
    LosslessAppend(PassedEvents(log), e);
    Shuffle(Requests(PassedEvents(log)), rejected, RequestOf(e));
  }

  lemma {:induction false} Shuffle<T>(a: multiset<T>, b: multiset<T>, c: multiset<T>)
    ensures a + c + b == a + b + c == a + (b + c)
  {}

  /** Dropping a best-effort event adds one hole, and its request, if it is one, is rejected. */
  lemma {:induction false} DropKeeps(
    inputs: seq<Event>, skipped: nat, log: seq<Item>, rejected: multiset<ServerRequest>, e: Event)
    requires Account(inputs, skipped, log, rejected) && !e.RequiresDelivery()
    ensures Account(inputs + [e], Bump(skipped), log, rejected + RequestOf(e))
  {
    LosslessAppend(inputs, e);
    NoEvent(Lossless(inputs));
    DropPositioned(inputs, skipped, log, e);
    Shuffle(Requests(PassedEvents(log)), rejected, RequestOf(e));
  }

  lemma {:induction false} DropPositioned(inputs: seq<Event>, skipped: nat, log: seq<Item>, e: Event)
    requires Positioned(inputs, skipped, log) && !e.RequiresDelivery()
    ensures Positioned(inputs + [e], Bump(skipped), log)
  {
    if |inputs + [e]| <= USIZE_MAX {
      var before, after := SlotsOf(log) + Holes(skipped), SlotsOf(log) + Holes(Bump(skipped));
      assert after == before + [None];
    }
  }

  /** The account, with what the channel was given. */
  ghost predicate Books(
    inputs: seq<Event>, skipped: nat, log: seq<Item>, rejected: seq<ServerRequest>, sent: seq<Event>)
  {
    Account(inputs, skipped, log, multiset(rejected)) && sent == Wire(log)
  }

  lemma {:induction false} SurfaceBooks(
    inputs: seq<Event>, skipped: nat, log: seq<Item>, rejected: seq<ServerRequest>, sent: seq<Event>)
    requires Books(inputs, skipped, log, rejected, sent) && skipped > 0
    ensures Books(inputs, 0, log + [Marker(skipped)], rejected, sent + [Lagged(skipped)])
  {
    SurfaceKeeps(inputs, skipped, log, multiset(rejected));
    LogAppend(log, Marker(skipped));
  }

  lemma {:induction false} PassBooks(
    inputs: seq<Event>, log: seq<Item>, rejected: seq<ServerRequest>, sent: seq<Event>, e: Event)
    requires Books(inputs, 0, log, rejected, sent)
    ensures Books(inputs + [e], 0, log + [Passed(e)], rejected, sent + [e])
  {
    PassKeeps(inputs, log, multiset(rejected), e);
    LogAppend(log, Passed(e));
  }

  lemma {:induction false} DropBooks(
    inputs: seq<Event>, skipped: nat, log: seq<Item>, rejected: seq<ServerRequest>, sent: seq<Event>, e: Event)
    requires Books(inputs, skipped, log, rejected, sent) && !e.RequiresDelivery()
    ensures Books(inputs + [e], Bump(skipped), log, rejected + if e.Requested? then [e.request] else [], sent)
  {
    DropKeeps(inputs, skipped, log, multiset(rejected), e);
    if e.Requested? {
      assert multiset(rejected + [e.request]) == multiset(rejected) + RequestOf(e);
    } else {
      assert rejected + [] == rejected;
    }
  }

  /** A lossless input is on the stream, not in a hole: it can be found at its own position. */
  lemma {:induction false} LosslessHasASlot(
    inputs: seq<Event>, skipped: nat, log: seq<Item>, rejected: multiset<ServerRequest>, i: nat)
    requires Account(inputs, skipped, log, rejected) && |inputs| <= USIZE_MAX
    requires i < |inputs| && inputs[i].RequiresDelivery()
    ensures i < |SlotsOf(log)| && SlotsOf(log)[i] == Some(inputs[i])
  {
    var all := SlotsOf(log) + Holes(skipped);
    assert all[i].Some?;
  }

  /** What a consumer has read so far is aligned with the inputs up to there. */
  lemma {:induction false} ReadPrefixAligned(
    inputs: seq<Event>, skipped: nat, log: seq<Item>, rejected: multiset<ServerRequest>, read: nat)
    requires Account(inputs, skipped, log, rejected) && |inputs| <= USIZE_MAX && read <= |log|
    ensures |SlotsOf(log[..read])| <= |inputs|
    ensures Aligned(SlotsOf(log[..read]), inputs[..|SlotsOf(log[..read])|])
  {
    SlotsOfPrefix(log, read);
    var part, all := SlotsOf(log[..read]), SlotsOf(log) + Holes(skipped);
    forall i | 0 <= i < |part| ensures part[i] == all[i] && inputs[..|part|][i] == inputs[i] {}
  }

  lemma {:induction false} SlotsOfPrefix(log: seq<Item>, read: nat)
    requires read <= |log|
    ensures SlotsOf(log[..read]) <= SlotsOf(log)
  {
    if read < |log| {
      SlotsOfPrefix(log[..|log| - 1], read);
      assert log[..|log| - 1][..read] == log[..read];
    } else {
      assert log[..read] == log;
    }
  }
}

/** The bounded channel to the consumer and the forwarder in front of it. */
module Forwarder {
  import opened Basics
  import opened Events
  import opened Slots

  datatype TrySend = Sent | Full | Closed
  datatype ForwardResult = Continue | DisableStream

  /** A bounded channel whose consumer runs at its own pace and may go away. */
  class EventChannel {
    const capacity: nat
    var queue: seq<Event>
    var open: bool
    ghost var sent: seq<Event>
    ghost var consumed: seq<Event>

    ghost predicate Valid()
      reads this
    {
      capacity >= 1 && |queue| <= capacity && consumed + queue == sent
    }

    constructor (requested: nat)
      ensures Valid() && open && sent == [] && capacity == if requested > 1 then requested else 1
    {
      capacity := if requested > 1 then requested else 1;
      queue, open, sent, consumed := [], true, [], [];
    }

    /** The consumer takes some events from the front, in order, and may close. */
    method ConsumerRuns()
      requires Valid()
      modifies this`queue, this`open, this`consumed
      ensures Valid() && old(consumed) <= consumed
      ensures open ==> old(open)
    {
      var k :| 0 <= k <= |queue|;
      consumed := consumed + queue[..k];
      queue := queue[k..];
      var closes: bool := *;
      if closes {
        open := false;
      }
    }

    /** Waits for room or for the consumer to go away. */
    method Send(e: Event) returns (ok: bool)
      requires Valid()
      modifies this
      ensures Valid()
      ensures ok ==> sent == old(sent) + [e]
      ensures !ok ==> sent == old(sent) && !open
    {
      ConsumerRuns();
      if open && |queue| == capacity {
        // Without room the call returns only after a receive or a close.
        var receives: bool := *;
        if receives {
          consumed := consumed + [queue[0]];
          queue := queue[1..];
        } else {
          open := false;
        }
      }
      ok := open;
      if ok {
        queue := queue + [e];
        sent := sent + [e];
      }
    }

    method TrySend(e: Event) returns (r: TrySend)
      requires Valid()
      modifies this
      ensures Valid()
      ensures r.Sent? ==> sent == old(sent) + [e]
      ensures !r.Sent? ==> sent == old(sent)
      ensures r.Full? ==> |queue| == capacity
      ensures r.Closed? ==> !open
    {
      ConsumerRuns();
      if !open {
        r := Closed;
      } else if |queue| == capacity {
        r := Full;
      } else {
        queue := queue + [e];
        sent := sent + [e];
        r := Sent;
      }
    }
  }

  /** The worker's event arm with its counter, and logs of what it did. */
  class EventForwarder {
    const channel: EventChannel
    var skippedEvents: nat
    var enabled: bool
    /** Requests answered with an overload error, and refresh requests refused before the stream. */
    var rejected: seq<ServerRequest>
    var refused: seq<ServerRequest>
    ghost var inputs: seq<Event>
    ghost var log: seq<Item>
    /** The event in hand when the stream was disabled. */
    ghost var lost: Option<Event>

    ghost predicate Valid()
      reads this, channel
    {
      Ready() && (enabled <==> lost.None?)
    }

    ghost predicate Ready()
      reads `skippedEvents, `inputs, `log, `rejected, channel
    {
      channel.Valid() && Books(inputs, skippedEvents, log, rejected, channel.sent)
    }

    constructor (capacity: nat)
      ensures Valid() && enabled && fresh(channel)
      ensures inputs == [] && log == [] && rejected == [] && refused == [] && skippedEvents == 0
    {
      channel := new EventChannel(capacity);
      skippedEvents, enabled, rejected, refused := 0, true, [], [];
      inputs, log, lost := [], [], None;
    }

    /** `forward_in_process_event`. */
    method Forward(event: Event) returns (r: ForwardResult)
      requires Ready()
      modifies this`skippedEvents, this`rejected, this`inputs, this`log, channel
      ensures Ready()
      ensures r.Continue? ==> inputs == old(inputs) + [event]
      ensures r.Continue? ==> Forwards(event, old(log), old(skippedEvents), old(rejected))
      ensures r.DisableStream? ==> !channel.open && inputs == old(inputs) && rejected == old(rejected)
    {
      hide Books;
      if skippedEvents > 0 {
        var surfaced := SurfaceLag(event);
        if surfaced.Closed? {
          return DisableStream;
        }
        if surfaced.Full? {
          Drop(event);
          return Continue;
        }
      }
      r := Offer(event);
    }

    /** Either the lag, if there is one, and then the event were sent, or the event was dropped. */
    ghost predicate Forwards(event: Event, logged: seq<Item>, skipped: nat, before: seq<ServerRequest>)
      reads this, channel
    {
      || (Passes(event, before) && log == Surfaced(logged, skipped) + [Passed(event)])
      || (Drops(event, before) && log == logged && skippedEvents == Bump(skipped))
      || (Drops(event, before) && log == Surfaced(logged, skipped) && skippedEvents == 1)
    }

    /** The log after surfacing the lag, if there is one. */
    static function Surfaced(log: seq<Item>, skipped: nat): seq<Item> {
      if skipped > 0 then log + [Marker(skipped)] else log
    }

    /** A pass leaves no lag and rejects nothing. */
    ghost predicate Passes(event: Event, before: seq<ServerRequest>)
      reads this, channel
    {
      rejected == before && skippedEvents == 0
    }

    /** A drop happens only on a full queue, only to best-effort events, and a dropped request is rejected. */
    ghost predicate Drops(event: Event, before: seq<ServerRequest>)
      reads this, channel
    {
      && !event.RequiresDelivery()
      && |channel.queue| == channel.capacity
      && rejected == before + (if event.Requested? then [event.request] else [])
    }

    /** Sends the lag marker: blocking in front of a lossless event, otherwise only if there is room. */
    method SurfaceLag(event: Event) returns (r: TrySend)
      requires Ready() && skippedEvents > 0
      modifies this`skippedEvents, this`log, channel
      ensures Ready()
      ensures r.Sent? ==> skippedEvents == 0 && log == old(log) + [Marker(old(skippedEvents))]
      ensures !r.Sent? ==> skippedEvents == old(skippedEvents) && log == old(log)
      ensures r.Full? ==> !event.RequiresDelivery() && |channel.queue| == channel.capacity
      ensures r.Closed? ==> !channel.open
    {
      hide Books;
      SurfaceBooks(inputs, skippedEvents, log, rejected, channel.sent);
      var marker := Lagged(skippedEvents);
      if event.RequiresDelivery() {
        var ok := channel.Send(marker);
        r := if ok then Sent else Closed;
      } else {
        r := channel.TrySend(marker);
      }
      if r.Sent? {
        log := log + [Marker(skippedEvents)];
        skippedEvents := 0;
      }
    }

    /** Sends the event itself when no lag is outstanding. */
    method Offer(event: Event) returns (r: ForwardResult)
      requires Ready() && skippedEvents == 0
      modifies this`skippedEvents, this`rejected, this`inputs, this`log, channel
      ensures Ready()
      ensures r.Continue? ==> inputs == old(inputs) + [event]
      ensures r.Continue? ==>
        || (Passes(event, old(rejected)) && log == old(log) + [Passed(event)])
        || (Drops(event, old(rejected)) && log == old(log) && skippedEvents == 1)
      ensures r.DisableStream? ==> !channel.open && inputs == old(inputs) && rejected == old(rejected)
    {
      hide Books;
      PassBooks(inputs, log, rejected, channel.sent, event);
      var tried: TrySend;
      if event.RequiresDelivery() {
        var ok := channel.Send(event);
        tried := if ok then Sent else Closed;
      } else {
        tried := channel.TrySend(event);
      }
      match tried {
        case Sent =>
          inputs, log := inputs + [event], log + [Passed(event)];
          r := Continue;
        case Full =>
          Drop(event);
          r := Continue;
        case Closed =>
          r := DisableStream;
      }
    }

    method Drop(event: Event)
      requires Ready() && !event.RequiresDelivery()
      modifies this`skippedEvents, this`rejected, this`inputs
      ensures Ready()
      ensures inputs == old(inputs) + [event] && skippedEvents == Bump(old(skippedEvents))
      ensures rejected == old(rejected) + (if event.Requested? then [event.request] else [])
    {
      DropBooks(inputs, skippedEvents, log, rejected, channel.sent, event);
      skippedEvents := Bump(skippedEvents);
      inputs := inputs + [event];
      rejected := rejected + (if event.Requested? then [event.request] else []);
    }

    /** The worker's event arm: refresh requests are refused, everything else is forwarded. */
    method HandleEvent(event: Event)
      requires Valid() && enabled
      modifies this, channel
      ensures Valid()
      ensures refused == old(refused) + Refused(event)
      ensures enabled ==> inputs == old(inputs) + Admitted(event)
      ensures !enabled ==> lost == Some(event) && inputs == old(inputs) && rejected == old(rejected) && !channel.open
      ensures !enabled ==> !IsRefresh(event)
    {
      hide Books;
      if IsRefresh(event) {
        refused := refused + [event.request];
        assert inputs + [] == inputs;
      } else {
        assert refused == refused + Refused(event);
        var r := Forward(event);
        if r.DisableStream? {
          enabled, lost := false, Some(event);
        }
      }
    }
  }

  predicate IsRefresh(e: Event) {
    e.Requested? && e.request.ChatgptAuthTokensRefresh?
  }

  /** Of the requests only those for refreshed tokens are refused; every other event reaches the stream. */
  lemma {:induction false} RefusalMeans(e: Event)
    ensures Admitted(e) == [e] <==>
      || e.Lagged? || e.Notified? || exists id, name, payload :: e == Requested(OtherRequest(id, name, payload))
    ensures Refused(e) == (if Admitted(e) == [] then [e.request] else [])
  {
    if e.Requested? && e.request.OtherRequest? {
      assert e == Requested(OtherRequest(e.request.id, e.request.name, e.request.payload));
    }
  }

  function Admitted(e: Event): seq<Event> {
    if IsRefresh(e) then [] else [e]
  }

  function Refused(e: Event): seq<ServerRequest> {
    if IsRefresh(e) then [e.request] else []
  }

  /** The events that reach the stream. */
  function Streamed(events: seq<Event>): seq<Event> {
    if events == [] then [] else Streamed(events[..|events| - 1]) + Admitted(events[|events| - 1])
  }

  function Refreshes(events: seq<Event>): seq<ServerRequest> {
    if events == [] then [] else Refreshes(events[..|events| - 1]) + Refused(events[|events| - 1])
  }

  lemma {:induction false} StreamedNext(events: seq<Event>, i: nat)
    requires i < |events|
    ensures Streamed(events[..i + 1]) == Streamed(events[..i]) + Admitted(events[i])
    ensures Refreshes(events[..i + 1]) == Refreshes(events[..i]) + Refused(events[i])
  {
    assert events[..i + 1][..i] == events[..i];
  }

  /** Requests split into those that reach the stream and the refused ones. */
  lemma {:induction false} RequestsSplit(events: seq<Event>)
    ensures Requests(events) == Requests(Streamed(events)) + multiset(Refreshes(events))
  {
    if events != [] {
      var rest, e := events[..|events| - 1], events[|events| - 1];
      RequestsSplit(rest);
      LosslessAppend(Streamed(rest), e);
      Shuffle(Requests(Streamed(rest)), multiset(Refreshes(rest)), RequestOf(e));
      assert multiset(Refreshes(rest) + Refused(e)) == multiset(Refreshes(rest)) + multiset(Refused(e));
      NoEvent(Streamed(rest));
      assert IsRefresh(e) ==> multiset(Refused(e)) == RequestOf(e);
    }
  }

  /** The account of a run is closed: each request was sent once, rejected once or refused once. */
  ghost predicate Closed(
    events: seq<Event>, log: seq<Item>, rejected: seq<ServerRequest>, refused: seq<ServerRequest>)
  {
    && Requests(PassedEvents(log)) + multiset(rejected) + multiset(refused) == Requests(events)
    && Lossless(PassedEvents(log)) == Lossless(Streamed(events))
  }

  lemma {:induction false} BooksClose(
    events: seq<Event>, skipped: nat, log: seq<Item>, rejected: seq<ServerRequest>, sent: seq<Event>)
    requires Books(Streamed(events), skipped, log, rejected, sent)
    ensures Closed(events, log, rejected, Refreshes(events))
  {
    RequestsSplit(events);
  }

  /**
   A whole run of the event arm over the runtime's events. While the stream is enabled every event was handled
   and the account is closed. When the consumer goes away the run stops at one event, which is lost, and the
   account of everything before it is still closed.
   */
  method Run(forwarder: EventForwarder, events: seq<Event>) returns (handled: nat)
    requires forwarder.Valid() && forwarder.enabled && forwarder.inputs == [] && forwarder.refused == []
    modifies forwarder, forwarder.channel
    ensures forwarder.Valid() && handled <= |events|
    ensures forwarder.enabled ==> handled == |events|
    ensures !forwarder.enabled ==> handled < |events| && forwarder.lost == Some(events[handled])
    ensures forwarder.inputs == Streamed(events[..handled]) && forwarder.refused == Refreshes(events[..handled])
    ensures Closed(events[..handled], forwarder.log, forwarder.rejected, forwarder.refused)
  {
    handled := 0;
    while handled < |events| && forwarder.enabled
      invariant forwarder.Valid() && handled <= |events|
      invariant !forwarder.enabled ==> handled < |events| && forwarder.lost == Some(events[handled])
      invariant forwarder.inputs == Streamed(events[..handled]) && forwarder.refused == Refreshes(events[..handled])
      decreases |events| - handled, forwarder.enabled
    {
      StreamedNext(events, handled);
      forwarder.HandleEvent(events[handled]);
      if forwarder.enabled {
        handled := handled + 1;
      } else {
        assert forwarder.refused == Refreshes(events[..handled]) + [];
      }
    }
    BooksClose(events[..handled], forwarder.skippedEvents, forwarder.log, forwarder.rejected, forwarder.channel.sent);
  }
}
