/**
 Exactly-once, in-order delivery of the SSE client: over any run, the durable events passed
 to handleEvent are one contiguous stretch of the server's log, whatever streams drop,
 whatever requests fail and wherever a parse error ends a stream.
 */
module SseDelivery {
  import opened Prelude
  import opened SseModel
  import opened SseSafety

  // ---------- Durable ----------

  lemma Reassociate(a: seq<Event>, b: seq<Event>, c: seq<Event>)
    ensures a + b + c == a + (b + c)
  {
  }

  lemma {:induction false} DurableConcat(a: seq<Event>, b: seq<Event>)
    ensures Durable(a + b) == Durable(a) + Durable(b)
  {
    if a == [] {
      assert a + b == b;
    } else {
      DurableConcat(a[1..], b);
      Reassociate(Kept(a[0]), Durable(a[1..]), Durable(b));
      assert (a + b)[0] == a[0] && (a + b)[1..] == a[1..] + b;
    }
  }

  lemma DurableOne(ev: Event)
    ensures Durable([ev]) == Kept(ev)
  {
    assert [ev][1..] == [];
    assert Kept(ev) + [] == Kept(ev);
  }

  lemma SliceGrows(log: seq<Event>, a: nat, b: nat)
    requires a <= b < |log|
    ensures log[a..b] + [log[b]] == log[a..b + 1]
  {
  }

  // ---------- The invariant ----------

  /** The log position of the next durable event that handleEvent has not seen. */
  function Front(s: State): nat {
    s.base + |Durable(s.handled)|
  }

  /** Delivered so far: a contiguous run of the log, ended by the cursor, and started right
      after the restored cursor when the server knew it. */
  ghost predicate DeliveredRun(s0: State, s: State) {
    && UniqueIds(s.log) && s0.log <= s.log
    && Front(s) <= |s.log| && Durable(s.handled) == s.log[s.base..Front(s)]
    && s.cursor == (if Durable(s.handled) == [] then s0.cursor else s.log[Front(s) - 1].id)
    && (forall i :: 0 <= i < |s0.log| && s0.log[i].id == s0.cursor ==> s.base == i + 1)
  }

  predicate Streaming(pc: Pc) {
    pc.WantSpawn? || pc.CheckSpawn? || pc.Add? || pc.Spawn? || pc.Drain? || pc.Handle?
  }

  /** The frame a worker has taken from the channel but not handled. */
  function InHand(pc: Pc): seq<Event> {
    if pc.Handle? then [pc.ev] else []
  }

  function Offered(r: Reader): seq<Event> {
    if r.Offering? || r.OfferingLast? then [r.ev] else []
  }

  predicate Reading(r: Reader) { r.Polling? || r.Parsing? || r.Offering? }

  /** The durable frames on their way to handleEvent, in hand, queued or being offered,
      continue the log exactly where delivery stands, at `front`. */
  ghost predicate StreamAt(log: seq<Event>, front: nat, c: Conn, inHand: seq<Event>) {
    var ahead := Durable(inHand + c.queue + Offered(c.reader));
    && front + |ahead| <= |log| && ahead == log[front..front + |ahead|]
    && (Reading(c.reader) ==> c.next == front + |ahead|)
  }

  lemma RunPrefix(log: seq<Event>, front: nat, a: seq<Event>, b: seq<Event>)
    requires front + |a + b| <= |log| && a + b == log[front..front + |a + b|]
    ensures front + |a| <= |log| && a == log[front..front + |a|]
  {
    assert a == (a + b)[..|a|];
  }

  lemma RunSuffix(log: seq<Event>, front: nat, a: seq<Event>, b: seq<Event>)
    requires front + |a + b| <= |log| && a + b == log[front..front + |a + b|]
    ensures b == log[front + |a|..front + |a| + |b|]
    ensures a != [] ==> log[front] == a[0]
  {
    assert b == (a + b)[|a|..];
    assert a != [] ==> (a + b)[0] == a[0];
  }

  ghost predicate WorkerFlow(s: State, pc: Pc)
    requires OwnedExists(s, pc)
  {
    && (Unopened(pc) ==>
          var c := s.conns[pc.Owned().value];
          c.header == s.cursor && c.queue == [] && c.reader.Unborn?)
    && (Streaming(pc) ==> StreamAt(s.log, Front(s), s.conns[pc.Owned().value], InHand(pc)))
  }

  ghost predicate Flow(s0: State, s: State)
    requires WellFormed(s)
  {
    DeliveredRun(s0, s) && forall t :: 0 <= t < |s.workers| ==> WorkerFlow(s, s.workers[t])
  }

  // ---------- Steps that touch no event ----------

  ghost predicate SameStream(c: Conn, c': Conn) {
    c'.header == c.header && c'.reader == c.reader && c'.next == c.next && c'.queue == c.queue
  }

  ghost predicate Follows(pc: Pc, pc': Pc) {
    && (Unopened(pc') ==> Unopened(pc) && pc'.Owned() == pc.Owned())
    && (Streaming(pc') ==> Streaming(pc) && pc'.Owned() == pc.Owned() && InHand(pc') == InHand(pc))
  }

  ghost predicate Quiet(s: State, s': State) {
    && s'.log == s.log && s'.handled == s.handled && s'.cursor == s.cursor && s'.base == s.base
    && |s'.conns| == |s.conns| && |s.workers| <= |s'.workers|
    && (forall k :: 0 <= k < |s.conns| ==> SameStream(s.conns[k], s'.conns[k]))
    && (forall t :: 0 <= t < |s.workers| ==> Follows(s.workers[t], s'.workers[t]))
    && (forall t :: |s.workers| <= t < |s'.workers| ==>
          exists u :: 0 <= u < |s.workers| && Follows(s.workers[u], s'.workers[t]))
  }

  lemma SameStreamAt(log: seq<Event>, front: nat, c: Conn, c': Conn, inHand: seq<Event>)
    requires SameStream(c, c') && StreamAt(log, front, c, inHand)
    ensures StreamAt(log, front, c', inHand)
  {
  }

  lemma {:induction false} QuietKeepsWorker(s: State, s': State, pc: Pc, pc': Pc)
    requires Quiet(s, s') && OwnedExists(s, pc) && OwnedExists(s', pc') && Follows(pc, pc') && WorkerFlow(s, pc)
    ensures WorkerFlow(s', pc')
  {
    if Streaming(pc') {
      SameStreamAt(s.log, Front(s), s.conns[pc.Owned().value], s'.conns[pc.Owned().value], InHand(pc));
    }
  }

  lemma {:induction false} QuietKeepsFlow(s0: State, s: State, s': State)
    requires WellFormed(s) && WellFormed(s') && Flow(s0, s) && Quiet(s, s')
    ensures Flow(s0, s')
  {
    forall t | 0 <= t < |s'.workers|
      ensures WorkerFlow(s', s'.workers[t])
    {
      var u :| 0 <= u < |s.workers| && Follows(s.workers[u], s'.workers[t]);
      QuietKeepsWorker(s, s', s.workers[u], s'.workers[t]);
    }
  }

  /** One worker moves without touching an event, changing at most its own connection's
      dialFailed or cancelled flag, and may start a handler on the stream it opened. */
  ghost predicate QuietMove(s: State, s': State, t: nat)
    requires Grounded(s, t)
  {
    && s'.log == s.log && s'.handled == s.handled && s'.cursor == s.cursor && s'.base == s.base
    && t < |s'.workers| && Follows(s.workers[t], s'.workers[t])
    && (|| s'.workers == s.workers[t := s'.workers[t]]
        || (|s'.workers| == |s.workers| + 1 && Follows(s.workers[t], s'.workers[|s.workers|])
            && s'.workers == s.workers[t := s'.workers[t]] + [s'.workers[|s.workers|]]))
    && (|| s'.conns == s.conns
        || (s.workers[t].Owned().Some?
            && var k := s.workers[t].Owned().value;
               |s'.conns| == |s.conns| && s'.conns == s.conns[k := s'.conns[k]] && SameStream(s.conns[k], s'.conns[k])))
  }

  lemma {:induction false} ConnectStepsQuiet(s: State, s': State, t: nat)
    requires Grounded(s, t) && (PublishStep(s, s', t) || ClearStep(s, s', t))
    ensures QuietMove(s, s', t)
  {
  }

  lemma {:induction false} SpawnStepsQuiet(s: State, s': State, t: nat)
    requires Grounded(s, t) && (AddStep(s, s', t) || SpawnStep(s, s', t))
    ensures QuietMove(s, s', t)
  {
  }

  lemma {:induction false} LeaveStepsQuiet(s: State, s': State, t: nat)
    requires Grounded(s, t) && (RefuseStep(s, s', t) || LeaveStep(s, s', t))
    ensures QuietMove(s, s', t)
  {
  }

  lemma {:induction false} RetryStepsQuiet(s: State, s': State, t: nat)
    requires Grounded(s, t) && (FailedStep(s, s', t) || BackoffStep(s, s', t))
    ensures QuietMove(s, s', t)
  {
  }

  ghost predicate QuietStep(s: State, s': State, t: nat)
    requires Grounded(s, t)
  {
    || PublishStep(s, s', t) || ClearStep(s, s', t) || AddStep(s, s', t) || SpawnStep(s, s', t)
    || RefuseStep(s, s', t) || LeaveStep(s, s', t) || FailedStep(s, s', t) || BackoffStep(s, s', t)
  }

  lemma {:induction false} QuietStepMoves(s: State, s': State, t: nat)
    requires Grounded(s, t) && QuietStep(s, s', t)
    ensures QuietMove(s, s', t)
  {
    if
    case PublishStep(s, s', t) || ClearStep(s, s', t) => ConnectStepsQuiet(s, s', t);
    case AddStep(s, s', t) || SpawnStep(s, s', t) => SpawnStepsQuiet(s, s', t);
    case RefuseStep(s, s', t) || LeaveStep(s, s', t) => LeaveStepsQuiet(s, s', t);
    case FailedStep(s, s', t) || BackoffStep(s, s', t) => RetryStepsQuiet(s, s', t);
  }

  lemma {:induction false} QuietMoveQuiet(s: State, s': State, t: nat)
    requires WellFormed(s) && Grounded(s, t) && QuietMove(s, s', t)
    ensures Quiet(s, s')
  {
  }

  lemma {:induction false} QuietStepKeepsFlow(s0: State, s: State, s': State, t: nat)
    requires WellFormed(s) && WellFormed(s') && Flow(s0, s) && t < |s.workers| && QuietStep(s, s', t)
    ensures Flow(s0, s')
  {
    QuietStepMoves(s, s', t);
    QuietMoveQuiet(s, s', t);
    QuietKeepsFlow(s0, s, s');
  }

  // ---------- Steps that open a stream or move an event ----------

  /** The rest of the argument for an active worker's step: nobody else has a stream. */
  lemma {:induction false} ActiveKeepsFlow(s0: State, s: State, s': State, t: nat)
    requires WellFormed(s) && WellFormed(s') && SingleOwner(s) && t < |s.workers| && s.workers[t].Active()
    requires |s'.workers| == |s.workers|
    requires forall u :: 0 <= u < |s.workers| && u != t ==> s'.workers[u] == s.workers[u]
    requires DeliveredRun(s0, s') && WorkerFlow(s', s'.workers[t])
    ensures Flow(s0, s')
  {
  }

  ghost predicate SameRun(s: State, s': State) {
    s'.log == s.log && s'.handled == s.handled && s'.cursor == s.cursor && s'.base == s.base
  }

  lemma {:induction false} EnterKeepsFlow(s: State, s': State, t: nat)
    requires Grounded(s, t) && WorkerFlow(s, s.workers[t]) && EnterStep(s, s', t)
    ensures SameRun(s, s') && OwnedExists(s', s'.workers[t]) && WorkerFlow(s', s'.workers[t])
  {
    var pc' := s'.workers[t];
    assert pc'.WantConn? || pc'.CheckConn? || pc'.NewConn? || pc'.Exiting?;
  }

  /** The server replays strictly after the cursor, so a new stream continues the run. */
  lemma {:induction false} StartContinues(s0: State, s: State, from: nat)
    requires DeliveredRun(s0, s) && StartsAt(s, s.cursor, from)
    ensures Durable(s.handled) != [] ==> from == Front(s)
    ensures Durable(s.handled) == [] ==> DeliveredRun(s0, s.(base := from))
  {
    if Durable(s.handled) != [] {
      assert s.log[Front(s) - 1].id == s.cursor;
    }
  }

  lemma {:induction false} SameRunKeeps(s0: State, s: State, s': State)
    requires DeliveredRun(s0, s) && SameRun(s, s')
    ensures DeliveredRun(s0, s')
  {
  }

  lemma {:induction false} OpenedKeepsFlow(s0: State, s: State, k: nat, from: nat)
    requires DeliveredRun(s0, s) && k < |s.conns| && StartsAt(s, s.cursor, from)
    requires s.conns[k].queue == [] && s.conns[k].reader.Unborn?
    ensures var s' := Opened(s, k, from);
            DeliveredRun(s0, s') && WorkerFlow(s', WantSpawn(k))
  {
    StartContinues(s0, s, from);
    var s' := Opened(s, k, from);
    SameRunKeeps(s0, s.(base := s'.base), s');
    assert [] + s'.conns[k].queue + Offered(s'.conns[k].reader) == [];
  }

  lemma {:induction false} SameConnsKeepFlow(s: State, s': State, pc: Pc)
    requires SameRun(s, s') && s'.conns == s.conns && OwnedExists(s, pc) && WorkerFlow(s, pc)
    ensures WorkerFlow(s', pc)
  {
  }

  lemma {:induction false} DialOpensFlow(s0: State, s: State, t: nat, from: nat)
    requires DeliveredRun(s0, s) && Grounded(s, t) && s.workers[t].Dial? && StartsAt(s, s.cursor, from)
    requires var c := s.conns[s.workers[t].k]; c.queue == [] && c.reader.Unborn?
    ensures var k := s.workers[t].k; var s' := Go(Opened(s, k, from), t, WantSpawn(k));
            DeliveredRun(s0, s') && WorkerFlow(s', WantSpawn(k))
  {
    var k := s.workers[t].k;
    OpenedKeepsFlow(s0, s, k, from);
    var s1, s' := Opened(s, k, from), Go(Opened(s, k, from), t, WantSpawn(k));
    SameRunKeeps(s0, s1, s');
    SameConnsKeepFlow(s1, s', WantSpawn(k));
  }

  lemma {:induction false} DialKeepsFlow(s0: State, s: State, s': State, t: nat)
    requires DeliveredRun(s0, s) && Grounded(s, t) && WorkerFlow(s, s.workers[t]) && DialStep(s, s', t)
    ensures DeliveredRun(s0, s') && OwnedExists(s', s'.workers[t]) && WorkerFlow(s', s'.workers[t])
  {
    var k := s.workers[t].k;
    if s' == Go(SetConn(s, k, s.conns[k].(dialFailed := true)), t, WantClear(k)) {
      SameRunKeeps(s0, s, s');
    } else {
      var from :| StartsAt(s, s.conns[k].header, from) && s' == Go(Opened(s, k, from), t, WantSpawn(k));
      DialOpensFlow(s0, s, t, from);
    }
  }

  lemma PopKeepsStream(log: seq<Event>, front: nat, c: Conn)
    requires StreamAt(log, front, c, []) && c.queue != []
    ensures StreamAt(log, front, c.(queue := c.queue[1..]), [c.queue[0]])
  {
    assert [c.queue[0]] + c.queue[1..] + Offered(c.reader) == [] + c.queue + Offered(c.reader);
  }

  lemma {:induction false} DrainKeepsFlow(s: State, s': State, t: nat)
    requires Grounded(s, t) && WorkerFlow(s, s.workers[t]) && DrainStep(s, s', t)
    ensures SameRun(s, s') && OwnedExists(s', s'.workers[t]) && WorkerFlow(s', s'.workers[t])
  {
    var k := s.workers[t].k;
    var c := s.conns[k];
    if s' == Go(s, t, Exiting) || s' == Go(s, t, Dropped) {
      assert !Unopened(s'.workers[t]) && !Streaming(s'.workers[t]);
    } else {
      PopKeepsStream(s.log, Front(s), c);
      PopKeepsFlow(s, t);
    }
  }

  lemma {:induction false} PopKeepsFlow(s: State, t: nat)
    requires Grounded(s, t) && s.workers[t].Drain?
    requires var c := s.conns[s.workers[t].k];
             c.queue != [] && StreamAt(s.log, Front(s), c.(queue := c.queue[1..]), [c.queue[0]])
    ensures var k := s.workers[t].k; var c := s.conns[k];
            var s' := Go(SetConn(s, k, c.(queue := c.queue[1..])), t, Handle(k, c.queue[0]));
            SameRun(s, s') && WorkerFlow(s', s'.workers[t])
  {
  }

  lemma HandleKeepsStream(log: seq<Event>, front: nat, c: Conn, ev: Event)
    requires StreamAt(log, front, c, [ev])
    ensures StreamAt(log, front + |Durable([ev])|, c, [])
    ensures ev.id != "" ==> front < |log| && log[front] == ev
  {
    var rest := c.queue + Offered(c.reader);
    assert [ev] + c.queue + Offered(c.reader) == [ev] + rest;
    assert [] + c.queue + Offered(c.reader) == rest;
    DurableConcat([ev], rest);
    RunSuffix(log, front, Durable([ev]), Durable(rest));
    DurableOne(ev);
  }

  lemma RunExtends(log: seq<Event>, base: nat, run: seq<Event>, ev: Event)
    requires base + |run| <= |log| && run == log[base..base + |run|]
    requires ev.id != "" ==> base + |run| < |log| && log[base + |run|] == ev
    ensures base + |run + Kept(ev)| <= |log| && run + Kept(ev) == log[base..base + |run + Kept(ev)|]
    ensures ev.id != "" ==> |run + Kept(ev)| == |run| + 1
    ensures ev.id == "" ==> run + Kept(ev) == run
  {
  }

  lemma {:induction false} RecordKeepsRun(s0: State, s: State, ev: Event)
    requires DeliveredRun(s0, s) && (ev.id != "" ==> Front(s) < |s.log| && s.log[Front(s)] == ev)
    ensures DeliveredRun(s0, Record(s, ev)) && Front(Record(s, ev)) == Front(s) + |Durable([ev])|
  {
    DurableConcat(s.handled, [ev]);
    DurableOne(ev);
    assert Durable(Record(s, ev).handled) == Durable(s.handled) + Kept(ev);
    RunExtends(s.log, s.base, Durable(s.handled), ev);
  }

  lemma {:induction false} HandleKeepsFlow(s0: State, s: State, s': State, t: nat)
    requires DeliveredRun(s0, s) && Grounded(s, t) && WorkerFlow(s, s.workers[t]) && HandleStep(s, s', t)
    ensures DeliveredRun(s0, s') && OwnedExists(s', s'.workers[t]) && WorkerFlow(s', s'.workers[t])
  {
    var ev := s.workers[t].ev;
    HandleKeepsStream(s.log, Front(s), s.conns[s.workers[t].k], ev);
    RecordKeepsRun(s0, s, ev);
    SameRunKeeps(s0, Record(s, ev), s');
  }

  lemma {:induction false} ActiveStepKeepsFlow(s0: State, s: State, s': State, t: nat)
    requires WellFormed(s) && DeliveredRun(s0, s) && t < |s.workers| && WorkerFlow(s, s.workers[t])
    requires EnterStep(s, s', t) || DialStep(s, s', t) || DrainStep(s, s', t) || HandleStep(s, s', t)
    ensures DeliveredRun(s0, s') && OwnedExists(s', s'.workers[t]) && WorkerFlow(s', s'.workers[t])
    ensures |s'.workers| == |s.workers| && s.workers[t].Active()
  {
    if
    case EnterStep(s, s', t) => EnterKeepsFlow(s, s', t); SameRunKeeps(s0, s, s');
    case DialStep(s, s', t) => DialKeepsFlow(s0, s, s', t);
    case DrainStep(s, s', t) => DrainKeepsFlow(s, s', t); SameRunKeeps(s0, s, s');
    case HandleStep(s, s', t) => HandleKeepsFlow(s0, s, s', t);
  }

  lemma {:induction false} WorkerKeepsFlow(s0: State, s: State, s': State, t: nat)
    requires Safe(s) && Safe(s') && Flow(s0, s) && t < |s.workers| && WorkerStep(s, s', t)
    ensures Flow(s0, s')
  {
    if QuietStep(s, s', t) {
      QuietStepKeepsFlow(s0, s, s', t);
    } else {
      WorkerStepShape(s, s', t);
      ActiveStepKeepsFlow(s0, s, s', t);
      ActiveKeepsFlow(s0, s, s', t);
    }
  }

  // ---------- Readers, Disconnect calls and the server ----------

  lemma ParseDurableKeepsStream(log: seq<Event>, front: nat, c: Conn, inHand: seq<Event>)
    requires UniqueIds(log) && StreamAt(log, front, c, inHand) && c.reader.Parsing? && c.next < |log|
    ensures StreamAt(log, front, c.(reader := Offering(log[c.next]), next := c.next + 1), inHand)
  {
    var ev, kept := log[c.next], inHand + c.queue;
    assert kept + [] == kept;
    DurableConcat(kept, [ev]);
    DurableOne(ev);
    SliceGrows(log, front, c.next);
  }

  /** The reader moves on without a durable frame: a test, a heartbeat, an end, an error. */
  lemma IdleKeepsStream(log: seq<Event>, front: nat, c: Conn, inHand: seq<Event>, r: Reader)
    requires StreamAt(log, front, c, inHand) && Offered(c.reader) == [] && Durable(Offered(r)) == []
    requires Reading(r) ==> Reading(c.reader)
    ensures StreamAt(log, front, c.(reader := r), inHand)
  {
    var kept := inHand + c.queue;
    assert kept + [] == kept;
    DurableConcat(kept, Offered(r));
  }

  lemma PushKeepsStream(log: seq<Event>, front: nat, c: Conn, inHand: seq<Event>, ev: Event, r: Reader)
    requires StreamAt(log, front, c, inHand) && Offered(c.reader) == [ev] && Offered(r) == []
    requires Reading(r) ==> Reading(c.reader)
    ensures StreamAt(log, front, c.(queue := c.queue + [ev], reader := r), inHand)
  {
    assert inHand + (c.queue + [ev]) + [] == inHand + c.queue + [ev];
  }

  /** Cancellation drops the offered frame: what is left is still the next stretch. */
  lemma CutKeepsStream(log: seq<Event>, front: nat, c: Conn, inHand: seq<Event>)
    requires StreamAt(log, front, c, inHand)
    ensures StreamAt(log, front, c.(reader := Gone), inHand)
  {
    var kept := inHand + c.queue;
    DurableConcat(kept, Offered(c.reader));
    RunPrefix(log, front, Durable(kept), Durable(Offered(c.reader)));
    assert inHand + c.queue + Offered(Gone) == kept;
  }

  lemma {:induction false} ParseKeepsStream(log: seq<Event>, c: Conn, c': Conn, front: nat, inHand: seq<Event>)
    requires UniqueIds(log) && ParseMove(log, c, c') && StreamAt(log, front, c, inHand)
    ensures StreamAt(log, front, c', inHand)
  {
    if c.reader.Parsing? && c.next < |log| && c' == c.(reader := Offering(log[c.next]), next := c.next + 1) {
      ParseDurableKeepsStream(log, front, c, inHand);
    } else {
      assert c' == c.(reader := c'.reader);
      if c'.reader.Offering? {
        DurableOne(c'.reader.ev);
      } else if c'.reader.OfferingLast? {
        DurableOne(PARSE_ERROR);
      }
      IdleKeepsStream(log, front, c, inHand, c'.reader);
    }
  }

  lemma {:induction false} OfferKeepsStream(log: seq<Event>, c: Conn, c': Conn, front: nat, inHand: seq<Event>)
    requires OfferMove(c, c') && StreamAt(log, front, c, inHand)
    ensures StreamAt(log, front, c', inHand)
  {
    if c'.queue == c.queue {
      CutKeepsStream(log, front, c, inHand);
    } else {
      PushKeepsStream(log, front, c, inHand, c.reader.ev, c'.reader);
    }
  }

  lemma {:induction false} ConnOnlyKeepsWorker(s: State, s': State, k: nat, pc: Pc)
    requires k < |s.conns| && ConnOnly(s, s', k) && OwnedExists(s, pc) && WorkerFlow(s, pc)
    requires s.conns[k].reader.Unborn? ==> s'.conns[k] == s.conns[k]
    requires Streaming(pc) && pc.Owned() == Some(k) ==> StreamAt(s.log, Front(s), s'.conns[k], InHand(pc))
    ensures WorkerFlow(s', pc)
  {
    assert SameRun(s, s') && Front(s') == Front(s);
    if pc.Owned().Some? && pc.Owned().value != k {
      assert s'.conns[pc.Owned().value] == s.conns[pc.Owned().value];
    }
  }

  lemma {:induction false} ReaderKeepsFlow(s0: State, s: State, s': State, k: nat)
    requires WellFormed(s) && WellFormed(s') && Flow(s0, s) && k < |s.conns| && ReaderStep(s, s', k)
    ensures Flow(s0, s')
  {
    ReaderStepShape(s, s', k);
    forall t | 0 <= t < |s'.workers|
      ensures WorkerFlow(s', s'.workers[t])
    {
      var pc := s.workers[t];
      if Streaming(pc) && pc.Owned() == Some(k) {
        assert WorkerFlow(s, pc);
        if ParseMove(s.log, s.conns[k], s'.conns[k]) {
          ParseKeepsStream(s.log, s.conns[k], s'.conns[k], Front(s), InHand(pc));
        } else {
          OfferKeepsStream(s.log, s.conns[k], s'.conns[k], Front(s), InHand(pc));
        }
      }
      ConnOnlyKeepsWorker(s, s', k, pc);
    }
  }

  lemma {:induction false} CloserKeepsFlow(s0: State, s: State, s': State, d: nat)
    requires WellFormed(s) && WellFormed(s') && Flow(s0, s) && d < |s.closers| && CloserStep(s, s', d)
    ensures Flow(s0, s')
  {
    assert Quiet(s, s');
    QuietKeepsFlow(s0, s, s');
  }

  lemma GrowthKeepsStream(log: seq<Event>, ev: Event, front: nat, c: Conn, inHand: seq<Event>)
    requires StreamAt(log, front, c, inHand)
    ensures StreamAt(log + [ev], front, c, inHand)
  {
    var n := |Durable(inHand + c.queue + Offered(c.reader))|;
    assert (log + [ev])[front..front + n] == log[front..front + n];
  }

  lemma {:induction false} GrowthKeepsRun(s0: State, s: State, ev: Event)
    requires DeliveredRun(s0, s) && UniqueIds(s.log + [ev])
    ensures DeliveredRun(s0, s.(log := s.log + [ev]))
  {
    assert (s.log + [ev])[s.base..Front(s)] == s.log[s.base..Front(s)];
  }

  /** The server logging another event changes nothing that was already due. */
  lemma {:induction false} OutsideKeepsFlow(s0: State, s: State, s': State)
    requires WellFormed(s) && WellFormed(s') && Flow(s0, s) && OutsideStep(s, s')
    ensures Flow(s0, s')
  {
    if ev :| UniqueIds(s.log + [ev]) && s' == s.(log := s.log + [ev]) {
      GrowthKeepsRun(s0, s, ev);
      forall t | 0 <= t < |s'.workers|
        ensures WorkerFlow(s', s'.workers[t])
      {
        var pc := s.workers[t];
        assert WorkerFlow(s, pc);
        if Streaming(pc) {
          GrowthKeepsStream(s.log, ev, Front(s), s.conns[pc.Owned().value], InHand(pc));
        }
      }
    } else {
      assert Quiet(s, s');
      QuietKeepsFlow(s0, s, s');
    }
  }

  // ---------- Theorems about whole runs ----------

  lemma {:induction false} NextKeepsFlow(s0: State, s: State, s': State)
    requires Safe(s) && Safe(s') && Flow(s0, s) && Next(s, s')
    ensures Flow(s0, s')
  {
    if t :| 0 <= t < |s.workers| && WorkerStep(s, s', t) {
      WorkerKeepsFlow(s0, s, s', t);
    } else if k :| 0 <= k < |s.conns| && ReaderStep(s, s', k) {
      ReaderKeepsFlow(s0, s, s', k);
    } else if d :| 0 <= d < |s.closers| && CloserStep(s, s', d) {
      CloserKeepsFlow(s0, s, s', d);
    } else {
      OutsideKeepsFlow(s0, s, s');
    }
  }

  lemma {:induction false} InitFlow(s: State)
    requires Init(s)
    ensures Safe(s) && Flow(s, s)
  {
    InitSafe(s);
    assert Durable(s.handled) == [];
  }

  lemma {:induction false} StepAtKeepsFlow(tr: seq<State>, i: nat)
    requires Run(tr) && i + 1 < |tr| && Safe(tr[i]) && Safe(tr[i + 1]) && Flow(tr[0], tr[i])
    ensures Flow(tr[0], tr[i + 1])
  {
    assert StepAt(tr, i);
    NextKeepsFlow(tr[0], tr[i], tr[i + 1]);
  }

  lemma {:induction false} AlwaysFlow(tr: seq<State>, i: nat)
    requires Run(tr) && i < |tr|
    ensures Safe(tr[i]) && Flow(tr[0], tr[i])
  {
    AlwaysSafe(tr, i);
    if i == 0 {
      InitFlow(tr[0]);
    } else {
      AlwaysFlow(tr, i - 1);
      StepAtKeepsFlow(tr, i - 1);
    }
  }

  /** Exactly once, in order, no gap: at every moment of every run the durable events that
      reached handleEvent are the log from `base` up to Front, the cursor is the id of the
      last of them, and when the server knew the restored cursor the run starts right after
      it.  No drop, failed request, parse error or shutdown changes that. */
  lemma ExactlyOnceInOrder(tr: seq<State>, i: nat)
    requires Run(tr) && i < |tr|
    ensures var s := tr[i];
            && tr[0].log <= s.log && s.base <= Front(s) <= |s.log|
            && Durable(s.handled) == s.log[s.base..Front(s)]
            && s.cursor == (if Durable(s.handled) == [] then tr[0].cursor else s.log[Front(s) - 1].id)
            && forall j :: 0 <= j < |tr[0].log| && tr[0].log[j].id == tr[0].cursor ==> s.base == j + 1
  {
    AlwaysFlow(tr, i);
  }

  /** No durable event is handled twice. */
  lemma HandledOnce(tr: seq<State>, i: nat, a: nat, b: nat)
    requires Run(tr) && i < |tr| && a < b < |Durable(tr[i].handled)|
    ensures Durable(tr[i].handled)[a].id != Durable(tr[i].handled)[b].id
  {
    AlwaysFlow(tr, i);
    var s := tr[i];
    assert Durable(s.handled)[a] == s.log[s.base + a] && Durable(s.handled)[b] == s.log[s.base + b];
  }

  /** Every request about to be sent carries the cursor of that moment as its Last-Event-ID,
      and every frame waiting on the stream being drained is the next unseen stretch. */
  lemma RequestsCarryCursor(tr: seq<State>, i: nat, t: nat)
    requires Run(tr) && i < |tr| && t < |tr[i].workers| && tr[i].workers[t].Dial?
    ensures tr[i].workers[t].k < |tr[i].conns| && tr[i].conns[tr[i].workers[t].k].header == tr[i].cursor
  {
    AlwaysFlow(tr, i);
  }

  lemma QueuedIsNext(tr: seq<State>, i: nat, t: nat)
    requires Run(tr) && i < |tr| && t < |tr[i].workers| && tr[i].workers[t].Drain?
    ensures var s := tr[i]; var k := s.workers[t].k;
            k < |s.conns| &&
            var waiting := Durable(s.conns[k].queue);
            Front(s) + |waiting| <= |s.log| && waiting == s.log[Front(s)..Front(s) + |waiting|]
  {
    AlwaysFlow(tr, i);
    assert WorkerFlow(tr[i], tr[i].workers[t]);
    QueueIsNext(tr[i].log, Front(tr[i]), tr[i].conns[tr[i].workers[t].k]);
  }

  lemma QueueIsNext(log: seq<Event>, front: nat, c: Conn)
    requires StreamAt(log, front, c, [])
    ensures front + |Durable(c.queue)| <= |log| && Durable(c.queue) == log[front..front + |Durable(c.queue)|]
  {
    assert [] + c.queue + Offered(c.reader) == c.queue + Offered(c.reader);
    DurableConcat(c.queue, Offered(c.reader));
    RunPrefix(log, front, Durable(c.queue), Durable(Offered(c.reader)));
  }

  ghost predicate Extends(s: State, s': State) {
    s.handled <= s'.handled && (Durable(s.handled) != [] ==> s'.base == s.base)
  }

  lemma {:induction false} WorkerExtends(s: State, s': State, t: nat)
    requires WellFormed(s) && t < |s.workers| && WorkerStep(s, s', t)
    ensures Extends(s, s')
  {
    if
    case QuietStep(s, s', t) => QuietStepMoves(s, s', t);
    case EnterStep(s, s', t) || DialStep(s, s', t) =>
    case DrainStep(s, s', t) || HandleStep(s, s', t) =>
  }

  lemma {:induction false} StepAtExtends(tr: seq<State>, i: nat)
    requires Run(tr) && i + 1 < |tr|
    ensures Extends(tr[i], tr[i + 1])
  {
    assert StepAt(tr, i);
    var s, s' := tr[i], tr[i + 1];
    if t :| 0 <= t < |s.workers| && WorkerStep(s, s', t) {
      WorkerExtends(s, s', t);
    } else if k :| 0 <= k < |s.conns| && ReaderStep(s, s', k) {
      ReaderStepShape(s, s', k);
    }
  }

  lemma DurablePrefix(a: seq<Event>, b: seq<Event>)
    requires a <= b
    ensures Durable(a) <= Durable(b)
  {
    assert b == a + b[|a|..];
    DurableConcat(a, b[|a|..]);
  }

  /** Delivery only ever grows, and its start is fixed by the first durable event. */
  lemma {:induction false} DeliveryExtends(tr: seq<State>, i: nat, j: nat)
    requires Run(tr) && i <= j < |tr|
    ensures tr[i].handled <= tr[j].handled
    ensures Durable(tr[i].handled) != [] ==> tr[j].base == tr[i].base && Durable(tr[j].handled) != []
    decreases j
  {
    if i < j {
      DeliveryExtends(tr, i, j - 1);
      StepAtExtends(tr, j - 1);
      DurablePrefix(tr[j - 1].handled, tr[j].handled);
    }
  }

  /** Durable keeps every frame with an id, as often as it occurs, and nothing else. */
  lemma {:induction false} DurableExactly(evs: seq<Event>, ev: Event)
    ensures multiset(Durable(evs))[ev] == if ev.id != "" then multiset(evs)[ev] else 0
  {
    if evs != [] {
      DurableExactly(evs[1..], ev);
      assert evs == [evs[0]] + evs[1..];
    }
  }
}
