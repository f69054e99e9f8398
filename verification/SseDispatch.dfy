/** handleEvent and the draining loop of handleEvents, on the client's own fields. */
module SseDispatch {
  import opened Prelude
  import opened SseModel

  /** A call of the h-th handler registered for the event's type. */
  datatype Invocation = Invocation(h: nat, ev: Event)

  /** The frames that reach handlers: not heartbeats, errors, untyped frames or messages. */
  predicate Dispatchable(ev: Event) {
    !ev.heartbeat && ev.kind != "error" && ev.kind != "" && ev.kind != "message"
  }

  /** Frames for which Stats.EventReceived fires. */
  predicate Received(handlers: map<string, nat>, ev: Event) {
    Dispatchable(ev) && ev.kind in handlers && handlers[ev.kind] > 0
  }

  /** Frames for which Stats.ParseError fires. */
  predicate Unparsed(ev: Event) {
    !ev.heartbeat && ev.kind == "error"
  }

  /** Every handler of the event's type, in registration order. */
  function Invocations(handlers: map<string, nat>, ev: Event): seq<Invocation> {
    if Dispatchable(ev) && ev.kind in handlers then seq(handlers[ev.kind], h requires h >= 0 => Invocation(h, ev)) else []
  }

  function AllInvocations(handlers: map<string, nat>, evs: seq<Event>): seq<Invocation> {
    if evs == [] then []
    else AllInvocations(handlers, evs[..|evs| - 1]) + Invocations(handlers, evs[|evs| - 1])
  }

  function CountIf(evs: seq<Event>, p: Event -> bool): nat {
    if evs == [] then 0 else CountIf(evs[..|evs| - 1], p) + (if p(evs[|evs| - 1]) then 1 else 0)
  }

  /** The id of the last durable frame, or the old cursor. */
  function CursorAfter(cursor: string, evs: seq<Event>): string {
    if evs == [] then cursor
    else if evs[|evs| - 1].id != "" then evs[|evs| - 1].id
    else CursorAfter(cursor, evs[..|evs| - 1])
  }

  class Client {
    var lastEventID: string
    var eventHandlers: map<string, nat>     // how many handlers are registered, by type
    var invoked: seq<Invocation>            // handler calls made
    var eventsReceived: nat                 // Stats.EventReceived calls
    var parseErrors: nat                    // Stats.ParseError calls

    method OnEvent(eventType: string)
      modifies this`eventHandlers
      ensures eventHandlers ==
              old(eventHandlers)[eventType := (if eventType in old(eventHandlers) then old(eventHandlers)[eventType] else 0) + 1]
    {
      eventHandlers := eventHandlers[eventType := (if eventType in eventHandlers then eventHandlers[eventType] else 0) + 1];
    }

    method HandleEvent(ev: Event)
      modifies this`lastEventID, this`invoked, this`eventsReceived, this`parseErrors
      ensures lastEventID == if ev.id != "" then ev.id else old(lastEventID)
      ensures invoked == old(invoked) + Invocations(eventHandlers, ev)
      ensures eventsReceived == old(eventsReceived) + (if Received(eventHandlers, ev) then 1 else 0)
      ensures parseErrors == old(parseErrors) + (if Unparsed(ev) then 1 else 0)
    {
      if ev.id != "" {
        lastEventID := ev.id;
      }
      if ev.heartbeat {
        return;
      }
      if ev.kind == "error" {
        parseErrors := parseErrors + 1;
        return;
      }
      if ev.kind != "" && ev.kind != "message" {
        var handlers := if ev.kind in eventHandlers then eventHandlers[ev.kind] else 0;
        for h := 0 to handlers
          modifies this`invoked
          invariant invoked == old(invoked) + seq(h, i requires i >= 0 => Invocation(i, ev))
        {
          invoked := invoked + [Invocation(h, ev)];
        }
        if handlers > 0 {
          eventsReceived := eventsReceived + 1;
        }
      }
    }

    /** handleEvents on a channel that yields evs and is then closed, or on which `done` is
        chosen first after `stop` frames: every received frame is handled once, in order. */
    method HandleEvents(evs: seq<Event>, stop: nat) returns (disconnected: bool)
      modifies this`lastEventID, this`invoked, this`eventsReceived, this`parseErrors
      ensures disconnected <==> stop > |evs|
      ensures var taken := evs[..Min(stop, |evs|)];
              && lastEventID == CursorAfter(old(lastEventID), taken)
              && invoked == old(invoked) + AllInvocations(eventHandlers, taken)
              && eventsReceived == old(eventsReceived) + CountIf(taken, e => Received(old(eventHandlers), e))
              && parseErrors == old(parseErrors) + CountIf(taken, Unparsed)
    {
      ghost var received := e => Received(old(eventHandlers), e);
      var i := 0;
      while i < stop && i < |evs|
        invariant i <= |evs| && i <= stop
        invariant lastEventID == CursorAfter(old(lastEventID), evs[..i])
        invariant invoked == old(invoked) + AllInvocations(eventHandlers, evs[..i])
        invariant eventsReceived == old(eventsReceived) + CountIf(evs[..i], received)
        invariant parseErrors == old(parseErrors) + CountIf(evs[..i], Unparsed)
      {
        assert evs[..i + 1][..i] == evs[..i];
        HandleEvent(evs[i]);
        i := i + 1;
      }
      disconnected := i < stop;
    }
  }

  /** What HandleEvent does with a frame, case by case: heartbeats, untyped frames and messages
      reach nobody, an error frame is counted, and any other frame goes to every handler of its
      type, in order, and is counted if there is one. */
  lemma FrameMeans(handlers: map<string, nat>, ev: Event)
    ensures Unparsed(ev) <==> !ev.heartbeat && ev.kind == "error"
    ensures ev.heartbeat || ev.kind in {"", "message", "error"} || ev.kind !in handlers ==>
              Invocations(handlers, ev) == [] && !Received(handlers, ev)
    ensures !ev.heartbeat && ev.kind !in {"", "message", "error"} && ev.kind in handlers ==>
              && |Invocations(handlers, ev)| == handlers[ev.kind] && (Received(handlers, ev) <==> handlers[ev.kind] > 0)
              && forall h: nat :: h < handlers[ev.kind] ==> Invocations(handlers, ev)[h] == Invocation(h, ev)
  {
  }

  function RecordAll(s: State, evs: seq<Event>): State {
    if evs == [] then s else Record(RecordAll(s, evs[..|evs| - 1]), evs[|evs| - 1])
  }

  /** The loop and the step system agree: handling the same frames one Record step at a time
      leaves the same cursor, and appends exactly those frames to `handled`. */
  lemma {:induction false} DispatchMatchesProtocol(s: State, evs: seq<Event>)
    ensures RecordAll(s, evs).cursor == CursorAfter(s.cursor, evs)
    ensures RecordAll(s, evs).handled == s.handled + evs
  {
    if evs != [] {
      DispatchMatchesProtocol(s, evs[..|evs| - 1]);
      assert evs[..|evs| - 1] + [evs[|evs| - 1]] == evs;
    }
  }

  /** A handler of a type is called once for each dispatchable frame of that type, and never
      for any other frame. */
  lemma {:induction false} InvokedExactlyOnce(handlers: map<string, nat>, evs: seq<Event>, call: Invocation)
    ensures multiset(AllInvocations(handlers, evs))[call]
            == if !call.ev.heartbeat && call.ev.kind !in {"", "message", "error"}
                  && call.ev.kind in handlers && call.h < handlers[call.ev.kind]
               then multiset(evs)[call.ev] else 0
  {
    if evs != [] {
      var front, last := evs[..|evs| - 1], evs[|evs| - 1];
      InvokedExactlyOnce(handlers, front, call);
      assert front + [last] == evs;
      if Dispatchable(last) && last.kind in handlers {
        OncePerHandler(handlers[last.kind], last, call);
      }
    }
  }

  lemma {:induction false} OncePerHandler(n: nat, ev: Event, call: Invocation)
    ensures multiset(seq(n, h requires h >= 0 => Invocation(h, ev)))[call] == if call.ev == ev && call.h < n then 1 else 0
  {
    if n > 0 {
      OncePerHandler(n - 1, ev, call);
      assert seq(n, h requires h >= 0 => Invocation(h, ev))
             == seq(n - 1, h requires h >= 0 => Invocation(h, ev)) + [Invocation(n - 1, ev)];
    }
  }
}
