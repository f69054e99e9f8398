/**
 The reconnecting Server-Sent-Events client of internal/sse/sse.go as a step system.

 Every thread has a program counter; one step is one lock operation, one channel
 operation, one test of the `done` channel, or one access to a field that another thread
 can touch.  Threads interleave freely.  `workers[0]` runs `Client.Start` (called once,
 through websites_events.go's startOnce); every other worker is a `handleEvents`
 goroutine.  `closers` are calls of `Disconnect`, any number of them, at any time.
 Each opened connection has its own reader goroutine.
 */
module SseModel {
  import opened Prelude

  // ---------- Events, connections, threads ----------

  /** A parsed frame.  Durable frames carry an id; heartbeats and parse errors do not. */
  datatype Event = Event(id: string, kind: string, heartbeat: bool)

  const PARSE_ERROR := Event("", "error", false)

  const QUEUE_CAPACITY := 100

  /** Program counter of `readEvents`. */
  datatype Reader =
    | Unborn                    // no response yet, so no goroutine
    | Polling                   // about to test ctx.Done
    | Parsing                   // blocked in ParseEvent
    | Offering(ev: Event)       // in the select that sends a parsed frame
    | OfferingLast(ev: Event)   // in the select that sends the parse-error frame
    | Gone                      // channel and body closed

  /** One `Connection`: header is the Last-Event-ID it sends, next the server's log
      position for this stream, queue the event channel. */
  datatype Conn = Conn(header: string, dialFailed: bool, cancelled: bool,
                       reader: Reader, next: nat, queue: seq<Event>)
  {
    /** Still holding resources: neither failed, nor ended, nor cancelled. */
    predicate Live() {
      !dialFailed && !cancelled && !reader.Gone?
    }
  }

  /** Program counter of `Start` and of the handler goroutines.  The middle group is
      `Client.Connect`, with the connection it is working on. */
  datatype Pc =
    | Idle                      // Start not yet called
    | Drain(k: nat)             // handleEvents: the select
    | Handle(k: nat, ev: Event) // handleEvents: about to run handleEvent
    | Dropped                   // handleDisconnection entered
    | Backoff                   // handleDisconnection: the select on done and the timer
    | Enter                     // Connect: first test of done
    | NewConn                   // Connect: build the connection, read the cursor
    | WantConn(k: nat)          // waiting for connMu
    | CheckConn(k: nat)         // holds connMu, about to test done
    | Publish(k: nat)           // holds connMu, saw done open
    | RefuseConn(k: nat)        // holds connMu, saw done closed
    | Dial(k: nat)              // request in flight
    | WantClear(k: nat)         // request failed, waiting for connMu
    | ClearConn(k: nat)         // holds connMu
    | Failed                    // Connect returned an ordinary error
    | WantSpawn(k: nat)         // stream open, waiting for spawnMu
    | CheckSpawn(k: nat)        // holds spawnMu, about to test done
    | Add(k: nat)               // holds spawnMu, saw done open
    | RefuseSpawn(k: nat)       // holds spawnMu, saw done closed
    | Spawn(k: nat)             // wg.Add done, about to start the handler
    | CloseConn(k: nat)         // about to cancel the connection and return ErrClientClosed
    | Exiting                   // returning; a handler still owes wg.Done
    | Finished
  {
    /** May still drain a stream or call Connect. */
    predicate Active() { !Exiting? && !Finished? }

    predicate InConnect() {
      Enter? || NewConn? || WantConn? || CheckConn? || Publish? || RefuseConn? || Dial? || WantClear?
      || ClearConn? || WantSpawn? || CheckSpawn? || Add? || RefuseSpawn? || Spawn? || CloseConn?
    }

    function Owned(): Option<nat> {
      match this
      case Drain(k) => Some(k)
      case Handle(k, _) => Some(k)
      case WantConn(k) => Some(k)
      case CheckConn(k) => Some(k)
      case Publish(k) => Some(k)
      case RefuseConn(k) => Some(k)
      case Dial(k) => Some(k)
      case WantClear(k) => Some(k)
      case ClearConn(k) => Some(k)
      case WantSpawn(k) => Some(k)
      case CheckSpawn(k) => Some(k)
      case Add(k) => Some(k)
      case RefuseSpawn(k) => Some(k)
      case Spawn(k) => Some(k)
      case CloseConn(k) => Some(k)
      case _ => None
    }
  }

  /** Program counter of one `Disconnect` call. */
  datatype CloserPc =
    | Begin | NeedSpawn | CloseDone | LeaveSpawn   // inside closeOnce.Do from NeedSpawn on
    | NeedConn | Sweep | Returned

  datatype Once = NotRun | Running | Completed

  datatype Holder = Worker(t: nat) | Closer(d: nat)

  datatype State = State(
    done: bool,
    once: Once,
    connMu: Option<Holder>,
    spawnMu: Option<Holder>,
    conn: Option<nat>,          // Client.conn
    wg: int,
    cursor: string,             // Client.lastEventID
    reconnect: bool,            // Options.Reconnect
    workers: seq<Pc>,
    closers: seq<CloserPc>,
    conns: seq<Conn>,           // every connection ever created
    log: seq<Event>,            // the server's durable log
    handled: seq<Event>,        // every frame passed to handleEvent, in order
    base: nat)                  // where in the log the delivered run starts

  // ---------- Initial states ----------

  ghost predicate UniqueIds(log: seq<Event>) {
    && (forall i :: 0 <= i < |log| ==> log[i].id != "")
    && (forall i, j :: 0 <= i < j < |log| ==> log[i].id != log[j].id)
  }

  /** A fresh client whose cursor was restored with SetLastEventID (possibly ""). */
  ghost predicate Init(s: State) {
    && !s.done && s.once == NotRun && s.connMu == None && s.spawnMu == None && s.conn == None
    && s.wg == 0 && s.workers == [Idle] && s.closers == [] && s.conns == [] && s.handled == []
    && UniqueIds(s.log) && s.base <= |s.log|
    && (forall i :: 0 <= i < |s.log| && s.log[i].id == s.cursor ==> s.base == i + 1)
  }

  // ---------- Steps ----------

  function Go(s: State, t: nat, pc: Pc): State
    requires t < |s.workers|
  {
    s.(workers := s.workers[t := pc])
  }

  function SetConn(s: State, k: nat, c: Conn): State
    requires k < |s.conns|
  {
    s.(conns := s.conns[k := c])
  }

  function Cancel(s: State, k: nat): State
    requires k < |s.conns|
  {
    SetConn(s, k, s.conns[k].(cancelled := true))
  }

  function Kept(ev: Event): seq<Event> {
    if ev.id != "" then [ev] else []
  }

  function Durable(evs: seq<Event>): seq<Event> {
    if evs == [] then [] else Kept(evs[0]) + Durable(evs[1..])
  }

  /** handleEvent: a non-empty id moves the cursor. */
  function Record(s: State, ev: Event): State {
    s.(handled := s.handled + [ev], cursor := if ev.id != "" then ev.id else s.cursor)
  }

  /** Where the server may start a stream: strictly after Last-Event-ID when it knows that
      id, anywhere when the header is absent or unknown. */
  ghost predicate StartsAt(s: State, header: string, from: nat) {
    && from <= |s.log|
    && (forall i :: 0 <= i < |s.log| && s.log[i].id == header ==> from == i + 1)
  }

  /** The request got a 200 text/event-stream answer: the reader goroutine starts.  Until
      something durable has been handled, this stream fixes where the delivered run starts. */
  function Opened(s: State, k: nat, from: nat): State
    requires k < |s.conns|
  {
    SetConn(s, k, s.conns[k].(reader := Polling, next := from)).(
      base := if Durable(s.handled) == [] then from else s.base)
  }

  predicate OwnedExists(s: State, pc: Pc) {
    pc.Owned().Some? ==> pc.Owned().value < |s.conns|
  }

  predicate Grounded(s: State, t: nat) {
    t < |s.workers| && OwnedExists(s, s.workers[t])
  }

  /** Connect: the first test of done, building the connection, taking connMu. */
  ghost predicate EnterStep(s: State, s': State, t: nat)
    requires Grounded(s, t)
  {
    match s.workers[t]
    case Enter => s' == Go(s, t, if s.done then Exiting else NewConn)
    case NewConn =>
      s' == Go(s.(conns := s.conns + [Conn(s.cursor, false, false, Unborn, 0, [])]), t, WantConn(|s.conns|))
    case WantConn(k) => s.connMu == None && s' == Go(s.(connMu := Some(Worker(t))), t, CheckConn(k))
    case _ => false
  }

  /** Connect: holding connMu, test done again and publish the connection. */
  ghost predicate PublishStep(s: State, s': State, t: nat)
    requires Grounded(s, t)
  {
    match s.workers[t]
    case CheckConn(k) => s' == Go(s, t, if s.done then RefuseConn(k) else Publish(k))
    case Publish(k) => s' == Go(s.(conn := Some(k), connMu := None), t, Dial(k))
    case _ => false
  }

  /** Connect: the request, which fails or opens a stream. */
  ghost predicate DialStep(s: State, s': State, t: nat)
    requires Grounded(s, t)
  {
    match s.workers[t]
    case Dial(k) =>
      || s' == Go(SetConn(s, k, s.conns[k].(dialFailed := true)), t, WantClear(k))
      || (exists from :: StartsAt(s, s.conns[k].header, from) && s' == Go(Opened(s, k, from), t, WantSpawn(k)))
    case _ => false
  }

  /** Connect: under connMu, un-publish a connection that failed to open. */
  ghost predicate ClearStep(s: State, s': State, t: nat)
    requires Grounded(s, t)
  {
    match s.workers[t]
    case WantClear(k) => s.connMu == None && s' == Go(s.(connMu := Some(Worker(t))), t, ClearConn(k))
    case ClearConn(k) =>
      s' == Go(s.(connMu := None, conn := if s.conn == Some(k) then None else s.conn), t, Failed)
    case _ => false
  }

  /** Connect: take spawnMu and test done once more. */
  ghost predicate AddStep(s: State, s': State, t: nat)
    requires Grounded(s, t)
  {
    match s.workers[t]
    case WantSpawn(k) => s.spawnMu == None && s' == Go(s.(spawnMu := Some(Worker(t))), t, CheckSpawn(k))
    case CheckSpawn(k) => s' == Go(s, t, if s.done then RefuseSpawn(k) else Add(k))
    case _ => false
  }

  /** Connect: wg.Add before releasing spawnMu, then start the handler and return nil. */
  ghost predicate SpawnStep(s: State, s': State, t: nat)
    requires Grounded(s, t)
  {
    match s.workers[t]
    case Add(k) => s' == Go(s.(wg := s.wg + 1, spawnMu := None), t, Spawn(k))
    case Spawn(k) => s' == s.(workers := s.workers[t := Exiting] + [Drain(k)])
    case _ => false
  }

  /** Connect: done was seen closed under a lock; release it. */
  ghost predicate RefuseStep(s: State, s': State, t: nat)
    requires Grounded(s, t)
  {
    match s.workers[t]
    case RefuseConn(k) => s' == Go(s.(connMu := None), t, CloseConn(k))
    case RefuseSpawn(k) => s' == Go(s.(spawnMu := None), t, CloseConn(k))
    case _ => false
  }

  /** Connect returning ErrClientClosed, and the end of a thread. */
  ghost predicate LeaveStep(s: State, s': State, t: nat)
    requires Grounded(s, t)
  {
    match s.workers[t]
    case CloseConn(k) => s' == Go(Cancel(s, k), t, Exiting)
    case Exiting => s' == Go(s.(wg := if t == 0 then s.wg else s.wg - 1), t, Finished)
    case _ => false
  }

  /** Start being called; Start or handleDisconnection after a failed Connect. */
  ghost predicate FailedStep(s: State, s': State, t: nat)
    requires Grounded(s, t)
  {
    match s.workers[t]
    case Idle => s' == Go(s, t, Enter)
    case Failed => s' == Go(s, t, Exiting) || s' == Go(s, t, if t == 0 then Enter else Backoff)
    case _ => false
  }

  /** handleDisconnection: give up, or select on done and the timer. */
  ghost predicate BackoffStep(s: State, s': State, t: nat)
    requires Grounded(s, t)
  {
    match s.workers[t]
    case Dropped => s' == Go(s, t, if s.reconnect then Backoff else Exiting)
    case Backoff => s' == Go(s, t, Enter) || (s.done && s' == Go(s, t, Exiting))
    case _ => false
  }

  /** handleEvents: the select on done and the event channel. */
  ghost predicate DrainStep(s: State, s': State, t: nat)
    requires Grounded(s, t)
  {
    match s.workers[t]
    case Drain(k) =>
      var c := s.conns[k];
      || (s.done && s' == Go(s, t, Exiting))
      || (c.queue != [] && s' == Go(SetConn(s, k, c.(queue := c.queue[1..])), t, Handle(k, c.queue[0])))
      || (c.queue == [] && c.reader.Gone? && s' == Go(s, t, Dropped))
    case _ => false
  }

  /** handleEvents: handleEvent on the received frame. */
  ghost predicate HandleStep(s: State, s': State, t: nat)
    requires Grounded(s, t)
  {
    match s.workers[t]
    case Handle(k, ev) => s' == Go(Record(s, ev), t, Drain(k))
    case _ => false
  }

  ghost predicate WorkerStep(s: State, s': State, t: nat)
    requires Grounded(s, t)
  {
    || EnterStep(s, s', t) || PublishStep(s, s', t) || DialStep(s, s', t) || ClearStep(s, s', t)
    || AddStep(s, s', t) || SpawnStep(s, s', t) || RefuseStep(s, s', t) || LeaveStep(s, s', t)
    || FailedStep(s, s', t) || BackoffStep(s, s', t) || DrainStep(s, s', t) || HandleStep(s, s', t)
  }

  /** readEvents: the test of ctx.Done, then ParseEvent. */
  ghost predicate ParseMove(log: seq<Event>, c: Conn, c': Conn) {
    match c.reader
    case Polling => c' == c.(reader := if c.cancelled then Gone else Parsing)
    case Parsing =>
      || (c.next < |log| && c' == c.(reader := Offering(log[c.next]), next := c.next + 1))
      || (exists ev: Event :: ev.id == "" && c' == c.(reader := Offering(ev)))
      || c' == c.(reader := Gone)                        // io.EOF
      || c' == c.(reader := OfferingLast(PARSE_ERROR))
    case _ => false
  }

  /** readEvents: the select on the channel send and ctx.Done. */
  ghost predicate OfferMove(c: Conn, c': Conn) {
    var room := |c.queue| < QUEUE_CAPACITY;
    match c.reader
    case Offering(ev) =>
      || (room && c' == c.(queue := c.queue + [ev], reader := Polling))
      || (c.cancelled && c' == c.(reader := Gone))
    case OfferingLast(ev) =>
      || (room && c' == c.(queue := c.queue + [ev], reader := Gone))
      || (c.cancelled && c' == c.(reader := Gone))
    case _ => false
  }

  /** A step of connection k's reader goroutine. */
  ghost predicate ReaderStep(s: State, s': State, k: nat)
    requires k < |s.conns|
  {
    && k < |s'.conns| && s' == SetConn(s, k, s'.conns[k])
    && (ParseMove(s.log, s.conns[k], s'.conns[k]) || OfferMove(s.conns[k], s'.conns[k]))
  }

  /** Disconnect call d. */
  ghost predicate CloserStep(s: State, s': State, d: nat)
    requires d < |s.closers|
    requires s.conn.Some? ==> s.conn.value < |s.conns|
  {
    match s.closers[d]
    case Begin =>
      || (s.once == NotRun && s' == s.(once := Running, closers := s.closers[d := NeedSpawn]))
      || (s.once == Completed && s' == s.(closers := s.closers[d := NeedConn]))
    case NeedSpawn => s.spawnMu == None && s' == s.(spawnMu := Some(Closer(d)), closers := s.closers[d := CloseDone])
    case CloseDone => s' == s.(done := true, closers := s.closers[d := LeaveSpawn])
    case LeaveSpawn => s' == s.(spawnMu := None, once := Completed, closers := s.closers[d := NeedConn])
    case NeedConn => s.connMu == None && s' == s.(connMu := Some(Closer(d)), closers := s.closers[d := Sweep])
    case Sweep =>
      var s1 := if s.conn.Some? then Cancel(s, s.conn.value) else s;
      s' == s1.(conn := None, connMu := None, closers := s1.closers[d := Returned])
    case Returned => false
  }

  /** The environment: a new Disconnect call, or a new durable event with a fresh id. */
  ghost predicate OutsideStep(s: State, s': State) {
    || s' == s.(closers := s.closers + [Begin])
    || (exists ev: Event :: UniqueIds(s.log + [ev]) && s' == s.(log := s.log + [ev]))
  }

  /** Every index held in a program counter or in Client.conn names a created connection. */
  ghost predicate WellFormed(s: State) {
    && (forall t :: 0 <= t < |s.workers| ==> OwnedExists(s, s.workers[t]))
    && (s.conn.Some? ==> s.conn.value < |s.conns|)
  }

  ghost predicate Next(s: State, s': State) {
    && WellFormed(s)
    && (|| (exists t :: 0 <= t < |s.workers| && WorkerStep(s, s', t))
        || (exists k :: 0 <= k < |s.conns| && ReaderStep(s, s', k))
        || (exists d :: 0 <= d < |s.closers| && CloserStep(s, s', d))
        || OutsideStep(s, s'))
  }

  ghost predicate StepAt(tr: seq<State>, i: nat)
    requires i + 1 < |tr|
  {
    Next(tr[i], tr[i + 1])
  }

  /** A run: any finite interleaving from a fresh client. */
  ghost predicate Run(tr: seq<State>) {
    && |tr| > 0 && Init(tr[0])
    && forall i: nat :: i + 1 < |tr| ==> StepAt(tr, i)
  }
}
