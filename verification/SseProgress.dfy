/**
 Progress of the SSE client: as long as nobody has closed it, reconnection is enabled and it
 has not given up, every run can go on until everything the server has logged is handled.
 */
module SseProgress {
  import opened Prelude
  import opened SseModel
  import opened SseSafety
  import opened SseDelivery

  // ---------- Continuations ----------

  ghost predicate Joins(p: seq<State>, s: State, s': State) {
    |p| > 0 && p[0] == s && p[|p| - 1] == s' && forall i: nat :: i + 1 < |p| ==> StepAt(p, i)
  }

  /** Some interleaving leads from s to s'. */
  ghost predicate Leads(s: State, s': State) {
    exists p: seq<State> :: Joins(p, s, s')
  }

  lemma LeadsNowhere(s: State)
    ensures Leads(s, s)
  {
    assert Joins([s], s, s);
  }

  lemma LeadsOn(s: State, m: State, s': State)
    requires Next(s, m) && Leads(m, s')
    ensures Leads(s, s')
  {
    var p :| Joins(p, m, s');
    var q := [s] + p;
    forall i: nat | i + 1 < |q|
      ensures StepAt(q, i)
    {
      if i > 0 {
        assert StepAt(p, i - 1);
      }
    }
    assert Joins(q, s, s');
  }

  lemma LeadsThrough(a: State, b: State, c: State)
    requires Leads(a, b) && Leads(b, c)
    ensures Leads(a, c)
  {
    var p :| Joins(p, a, b);
    var q :| Joins(q, b, c);
    var r := p + q[1..];
    forall i: nat | i + 1 < |r|
      ensures StepAt(r, i)
    {
      if i + 1 < |p| {
        assert StepAt(p, i);
      } else {
        assert StepAt(q, i + 1 - |p|);
      }
    }
    assert Joins(r, a, c);
  }

  /** A continuation of the last state of a run makes a longer run. */
  lemma RunGoesOn(tr: seq<State>, s': State) returns (longer: seq<State>)
    requires Run(tr) && Leads(tr[|tr| - 1], s')
    ensures Run(longer) && tr <= longer && longer[|longer| - 1] == s'
  {
    var p :| Joins(p, tr[|tr| - 1], s');
    longer := tr + p[1..];
    forall i: nat | i + 1 < |longer|
      ensures StepAt(longer, i)
    {
      if i + 1 < |tr| {
        assert StepAt(tr, i);
      } else {
        assert StepAt(p, i + 1 - |tr|);
      }
    }
  }

  // ---------- While the client is open ----------

  predicate Refusing(pc: Pc) { pc.RefuseConn? || pc.RefuseSpawn? || pc.CloseConn? }

  /** Connections are cancelled and Connect refuses only after `done` is closed; an open stream
      has a reader; the channel holds at most a hundred frames. */
  ghost predicate Calm(s: State)
    requires WellFormed(s)
  {
    && (forall k :: 0 <= k < |s.conns| ==> CalmConn(s, s.conns[k]))
    && (forall t :: 0 <= t < |s.workers| ==> CalmWorker(s, s.workers[t]))
  }

  predicate CalmConn(s: State, c: Conn) {
    (c.cancelled ==> s.done) && |c.queue| <= 100
  }

  predicate CalmWorker(s: State, pc: Pc)
    requires OwnedExists(s, pc)
  {
    && (Refusing(pc) ==> s.done)
    && (Streaming(pc) ==> !s.conns[pc.Owned().value].reader.Unborn?)
    && (Unopened(pc) ==> s.conns[pc.Owned().value].queue == [])
  }

  /** What one worker step does to its own connection, the one it creates, itself and the
      handler it starts. */
  ghost predicate CalmAfter(s: State, s': State, t: nat)
    requires WellFormed(s) && t < |s.workers|
  {
    && s'.done == s.done && |s.conns| <= |s'.conns| <= |s.conns| + 1
    && t < |s'.workers| && OwnedExists(s', s'.workers[t]) && CalmWorker(s', s'.workers[t])
    && (s.workers[t].Owned().Some? ==> CalmConn(s', s'.conns[s.workers[t].Owned().value]))
    && (|s'.conns| > |s.conns| ==> CalmConn(s', s'.conns[|s.conns|]))
    && (|s'.workers| > |s.workers| ==> OwnedExists(s', s'.workers[|s.workers|]) && CalmWorker(s', s'.workers[|s.workers|]))
  }

  lemma {:induction false} EnterCalm(s: State, s': State, t: nat)
    requires WellFormed(s) && Calm(s) && t < |s.workers| && EnterStep(s, s', t)
    ensures CalmAfter(s, s', t)
  {
  }

  lemma {:induction false} PublishCalm(s: State, s': State, t: nat)
    requires WellFormed(s) && Calm(s) && t < |s.workers| && PublishStep(s, s', t)
    ensures CalmAfter(s, s', t)
  {
  }

  lemma {:induction false} ClearCalm(s: State, s': State, t: nat)
    requires WellFormed(s) && Calm(s) && t < |s.workers| && ClearStep(s, s', t)
    ensures CalmAfter(s, s', t)
  {
  }

  lemma {:induction false} DialCalm(s: State, s': State, t: nat)
    requires WellFormed(s) && Calm(s) && t < |s.workers| && DialStep(s, s', t)
    ensures CalmAfter(s, s', t)
  {
  }

  lemma {:induction false} AddCalm(s: State, s': State, t: nat)
    requires WellFormed(s) && Calm(s) && t < |s.workers| && AddStep(s, s', t)
    ensures CalmAfter(s, s', t)
  {
  }

  lemma {:induction false} SpawnCalm(s: State, s': State, t: nat)
    requires WellFormed(s) && Calm(s) && t < |s.workers| && SpawnStep(s, s', t)
    ensures CalmAfter(s, s', t)
  {
  }

  lemma {:induction false} RefuseCalm(s: State, s': State, t: nat)
    requires WellFormed(s) && Calm(s) && t < |s.workers| && RefuseStep(s, s', t)
    ensures CalmAfter(s, s', t)
  {
  }

  lemma {:induction false} LeaveCalm(s: State, s': State, t: nat)
    requires WellFormed(s) && Calm(s) && t < |s.workers| && LeaveStep(s, s', t)
    ensures CalmAfter(s, s', t)
  {
  }

  lemma {:induction false} FailedCalm(s: State, s': State, t: nat)
    requires WellFormed(s) && Calm(s) && t < |s.workers| && FailedStep(s, s', t)
    ensures CalmAfter(s, s', t)
  {
  }

  lemma {:induction false} BackoffCalm(s: State, s': State, t: nat)
    requires WellFormed(s) && Calm(s) && t < |s.workers| && BackoffStep(s, s', t)
    ensures CalmAfter(s, s', t)
  {
  }

  lemma {:induction false} DrainCalm(s: State, s': State, t: nat)
    requires WellFormed(s) && Calm(s) && t < |s.workers| && DrainStep(s, s', t)
    ensures CalmAfter(s, s', t)
  {
  }

  lemma {:induction false} HandleCalm(s: State, s': State, t: nat)
    requires WellFormed(s) && Calm(s) && t < |s.workers| && HandleStep(s, s', t)
    ensures CalmAfter(s, s', t)
  {
  }

  lemma {:induction false} WorkerCalm(s: State, s': State, t: nat)
    requires WellFormed(s) && Calm(s) && t < |s.workers| && WorkerStep(s, s', t)
    ensures CalmAfter(s, s', t)
  {
    if
    case EnterStep(s, s', t) => EnterCalm(s, s', t);
    case PublishStep(s, s', t) => PublishCalm(s, s', t);
    case ClearStep(s, s', t) => ClearCalm(s, s', t);
    case DialStep(s, s', t) => DialCalm(s, s', t);
    case AddStep(s, s', t) => AddCalm(s, s', t);
    case SpawnStep(s, s', t) => SpawnCalm(s, s', t);
    case RefuseStep(s, s', t) => RefuseCalm(s, s', t);
    case LeaveStep(s, s', t) => LeaveCalm(s, s', t);
    case FailedStep(s, s', t) => FailedCalm(s, s', t);
    case BackoffStep(s, s', t) => BackoffCalm(s, s', t);
    case DrainStep(s, s', t) => DrainCalm(s, s', t);
    case HandleStep(s, s', t) => HandleCalm(s, s', t);
  }

  lemma {:induction false} WorkerKeepsConnsCalm(s: State, s': State, t: nat)
    requires WellFormed(s) && Calm(s) && t < |s.workers| && CalmAfter(s, s', t)
    requires WorkerShape(s, s', t) && ConnShape(s, s', t)
    ensures forall k :: 0 <= k < |s'.conns| ==> CalmConn(s', s'.conns[k])
  {
    forall k | 0 <= k < |s'.conns|
      ensures CalmConn(s', s'.conns[k])
    {
      if k < |s.conns| && s.workers[t].Owned() != Some(k) {
        assert s'.conns[k] == s.conns[k] && CalmConn(s, s.conns[k]);
      }
    }
  }

  /** Only one worker is active, so only the one that moves can notice what it changed. */
  lemma {:induction false} WorkerKeepsOthersCalm(s: State, s': State, t: nat, u: nat)
    requires WellFormed(s) && SingleOwner(s) && Calm(s) && t < |s.workers| && CalmAfter(s, s', t)
    requires WorkerShape(s, s', t) && ConnShape(s, s', t)
    requires u < |s.workers| && u != t && OwnedExists(s', s.workers[u])
    ensures CalmWorker(s', s.workers[u])
  {
    var pc := s.workers[u];
    if pc.Active() && pc.Owned().Some? {
      assert !s.workers[t].Active() && s.workers[t].Owned() == None;
      assert s'.conns[pc.Owned().value] == s.conns[pc.Owned().value];
    }
    assert CalmWorker(s, pc);
  }

  lemma {:induction false} WorkerKeepsCalm(s: State, s': State, t: nat)
    requires Safe(s) && Safe(s') && Calm(s) && t < |s.workers| && WorkerStep(s, s', t)
    ensures Calm(s')
  {
    WorkerStepShape(s, s', t);
    WorkerCalm(s, s', t);
    WorkerKeepsConnsCalm(s, s', t);
    forall u | 0 <= u < |s'.workers|
      ensures CalmWorker(s', s'.workers[u])
    {
      if u != t && u < |s.workers| {
        WorkerKeepsOthersCalm(s, s', t, u);
      }
    }
  }

  lemma {:induction false} ReaderKeepsCalm(s: State, s': State, k: nat)
    requires WellFormed(s) && WellFormed(s') && AllOwnRightly(s) && Calm(s) && k < |s.conns| && ReaderStep(s, s', k)
    ensures Calm(s')
  {
    assert CalmConn(s, s.conns[k]);
    assert !s.conns[k].reader.Unborn?;
    forall t | 0 <= t < |s'.workers|
      ensures CalmWorker(s', s'.workers[t])
    {
      assert CalmWorker(s, s.workers[t]) && OwnsRightly(s, s.workers[t]);
    }
  }

  lemma {:induction false} CloserKeepsCalm(s: State, s': State, d: nat)
    requires Safe(s) && Safe(s') && Calm(s) && d < |s.closers| && CloserStep(s, s', d)
    ensures Calm(s')
  {
    CloserKeepsConns(s, s', d);
    forall k | 0 <= k < |s'.conns|
      ensures CalmConn(s', s'.conns[k])
    {
      assert CalmConn(s, s.conns[k]);
    }
    forall t | 0 <= t < |s'.workers|
      ensures CalmWorker(s', s'.workers[t])
    {
      assert CalmWorker(s, s.workers[t]);
    }
  }

  ghost predicate Good(s0: State, s: State) {
    Safe(s) && Flow(s0, s) && Calm(s)
  }

  lemma {:induction false} NextKeepsCalm(s: State, s': State)
    requires Safe(s) && Safe(s') && Calm(s) && Next(s, s')
    ensures Calm(s')
  {
    if t :| 0 <= t < |s.workers| && WorkerStep(s, s', t) {
      WorkerKeepsCalm(s, s', t);
    } else if k :| 0 <= k < |s.conns| && ReaderStep(s, s', k) {
      ReaderKeepsCalm(s, s', k);
    } else if d :| 0 <= d < |s.closers| && CloserStep(s, s', d) {
      CloserKeepsCalm(s, s', d);
    } else {
      OutsideKeepsCalm(s, s');
    }
  }

  lemma {:induction false} OutsideKeepsCalm(s: State, s': State)
    requires WellFormed(s) && WellFormed(s') && Calm(s) && OutsideStep(s, s')
    ensures Calm(s')
  {
    assert forall k :: 0 <= k < |s.conns| ==> CalmConn(s, s.conns[k]);
    assert forall t :: 0 <= t < |s.workers| ==> CalmWorker(s, s.workers[t]);
  }

  lemma {:induction false} NextKeepsGood(s0: State, s: State, s': State)
    requires Good(s0, s) && Next(s, s')
    ensures Good(s0, s')
  {
    NextKeepsSafe(s, s');
    NextKeepsFlow(s0, s, s');
    NextKeepsCalm(s, s');
  }

  lemma {:induction false} AlwaysGood(tr: seq<State>, i: nat)
    requires Run(tr) && i < |tr|
    ensures Good(tr[0], tr[i])
  {
    AlwaysFlow(tr, i);
    if i > 0 {
      AlwaysGood(tr, i - 1);
      assert StepAt(tr, i - 1);
      NextKeepsGood(tr[0], tr[i - 1], tr[i]);
    }
  }

  // ---------- The way from any active worker to a drained stream ----------

  /** Where worker t gets next when nobody closes the client and its request is answered; n is
      the number of connections so far. */
  function Onward(pc: Pc, t: nat, n: nat): Pc {
    match pc
    case Idle => Enter
    case Dropped => Backoff
    case Backoff => Enter
    case Failed => if t == 0 then Enter else Backoff
    case Enter => NewConn
    case NewConn => WantConn(n)
    case WantConn(k) => CheckConn(k)
    case CheckConn(k) => Publish(k)
    case Publish(k) => Dial(k)
    case Dial(k) => WantSpawn(k)
    case WantClear(k) => ClearConn(k)
    case ClearConn(_) => Failed
    case WantSpawn(k) => CheckSpawn(k)
    case CheckSpawn(k) => Add(k)
    case Add(k) => Spawn(k)
    case _ => Exiting
  }

  /** What it changes on the way; the stream that answers starts at `from`. */
  function Effect(s: State, t: nat, from: nat): State
    requires WellFormed(s) && t < |s.workers|
  {
    match s.workers[t]
    case NewConn => s.(conns := s.conns + [Conn(s.cursor, false, false, Unborn, 0, [])])
    case WantConn(_) => s.(connMu := Some(Worker(t)))
    case Publish(k) => s.(conn := Some(k), connMu := None)
    case Dial(k) => Opened(s, k, from)
    case WantClear(_) => s.(connMu := Some(Worker(t)))
    case ClearConn(k) => s.(connMu := None, conn := if s.conn == Some(k) then None else s.conn)
    case WantSpawn(_) => s.(spawnMu := Some(Worker(t)))
    case Add(_) => s.(wg := s.wg + 1, spawnMu := None)
    case Spawn(k) => s.(workers := s.workers + [Drain(k)])
    case _ => s
  }

  function Forward(s: State, t: nat, from: nat): State
    requires WellFormed(s) && t < |s.workers|
  {
    Go(Effect(s, t, from), t, Onward(s.workers[t], t, |s.conns|))
  }

  /** How many such steps a worker is away from a handler draining a stream; 0 for the program
      counters that are not on that way. */
  function Distance(pc: Pc): nat {
    match pc
    case WantClear(_) => 14
    case ClearConn(_) => 13
    case Dropped => 12
    case Failed => 12
    case Idle => 11
    case Backoff => 11
    case Enter => 10
    case NewConn => 9
    case WantConn(_) => 8
    case CheckConn(_) => 7
    case Publish(_) => 6
    case Dial(_) => 5
    case WantSpawn(_) => 4
    case CheckSpawn(_) => 3
    case Add(_) => 2
    case Spawn(_) => 1
    case _ => 0
  }

  /** Nobody has closed the client or holds the lock to close it. */
  ghost predicate Open(s: State) {
    !s.done && forall d :: 0 <= d < |s.closers| ==> !s.closers[d].CloseDone?
  }

  /** While the client is open an active worker that holds no lock finds both locks free: the
      other workers have nothing left to do, and no Disconnect call has come that far. */
  lemma {:induction false} LocksFree(s: State, t: nat)
    requires Safe(s) && Open(s) && t < |s.workers| && s.workers[t].Active() && Holds(s.workers[t]) == NoLock
    ensures s.connMu == None && s.spawnMu == None
  {
    assert forall u :: 0 <= u < |s.workers| && u != t ==> !s.workers[u].Active();
  }

  lemma {:induction false} EarlySteps(s: State, t: nat, from: nat)
    requires Safe(s) && Open(s) && s.reconnect && t < |s.workers|
    requires s.workers[t].Idle? || s.workers[t].Failed? || s.workers[t].Dropped? || s.workers[t].Backoff? || s.workers[t].Enter? || s.workers[t].NewConn?
    ensures WorkerStep(s, Forward(s, t, from), t)
  {
    var m := Forward(s, t, from);
    assert FailedStep(s, m, t) || BackoffStep(s, m, t) || EnterStep(s, m, t);
  }

  lemma {:induction false} ConnSteps(s: State, t: nat, from: nat)
    requires Safe(s) && Open(s) && t < |s.workers|
    requires s.workers[t].WantConn? || s.workers[t].CheckConn? || s.workers[t].Publish? || s.workers[t].WantClear? || s.workers[t].ClearConn?
    ensures WorkerStep(s, Forward(s, t, from), t)
  {
    if Holds(s.workers[t]) == NoLock {
      LocksFree(s, t);
    }
    var m := Forward(s, t, from);
    assert EnterStep(s, m, t) || PublishStep(s, m, t) || ClearStep(s, m, t);
  }

  lemma {:induction false} OpenSteps(s: State, t: nat, from: nat)
    requires Safe(s) && Open(s) && t < |s.workers|
    requires s.workers[t].Dial? || s.workers[t].WantSpawn? || s.workers[t].CheckSpawn? || s.workers[t].Add? || s.workers[t].Spawn?
    requires s.workers[t].Dial? ==> StartsAt(s, s.conns[s.workers[t].k].header, from)
    ensures WorkerStep(s, Forward(s, t, from), t)
  {
    if Holds(s.workers[t]) == NoLock {
      LocksFree(s, t);
    }
    var m := Forward(s, t, from);
    assert DialStep(s, m, t) || AddStep(s, m, t) || SpawnStep(s, m, t);
  }

  lemma {:induction false} ForwardSteps(s0: State, s: State, t: nat, from: nat)
    requires Good(s0, s) && Open(s) && s.reconnect && t < |s.workers| && Distance(s.workers[t]) > 0
    requires StartsAt(s, s.cursor, from)
    ensures var m := Forward(s, t, from);
            Next(s, m) && Good(s0, m)
  {
    var m, pc := Forward(s, t, from), s.workers[t];
    assert WorkerFlow(s, pc);
    if pc.Idle? || pc.Failed? || pc.Dropped? || pc.Backoff? || pc.Enter? || pc.NewConn? {
      EarlySteps(s, t, from);
    } else if pc.Dial? || pc.WantSpawn? || pc.CheckSpawn? || pc.Add? || pc.Spawn? {
      OpenSteps(s, t, from);
    } else {
      ConnSteps(s, t, from);
    }
    assert Next(s, m);
    NextKeepsGood(s0, s, m);
  }

  /** m continues s without closing anything, logging anything or losing what was handled. */
  ghost predicate Continues(s0: State, s: State, m: State) {
    && Leads(s, m) && Good(s0, m) && Open(m) && m.reconnect && m.log == s.log
  }

  ghost predicate Undelivered(s: State, m: State) {
    m.cursor == s.cursor && Durable(m.handled) == Durable(s.handled)
  }

  /** The stream of connection c is open and has nothing in it yet. */
  predicate Fresh(c: Conn, from: nat) {
    c.queue == [] && c.reader.Polling? && c.next == from
  }

  predicate Draining(s: State, u: nat, k: nat) {
    u < |s.workers| && s.workers[u] == Drain(k) && k < |s.conns|
  }

  lemma {:induction false} ForwardKeeps(s: State, t: nat, from: nat)
    requires WellFormed(s) && Open(s) && t < |s.workers|
    ensures var m := Forward(s, t, from);
            Open(m) && m.reconnect == s.reconnect && m.log == s.log && m.cursor == s.cursor && m.handled == s.handled
  {
  }

  lemma OnwardNearer(pc: Pc, t: nat, n: nat)
    requires Distance(pc) > 1
    ensures 0 < Distance(Onward(pc, t, n)) < Distance(pc)
    ensures Distance(pc) <= 5 ==> Distance(Onward(pc, t, n)) < 5 && Onward(pc, t, n).Owned() == pc.Owned()
  {
  }

  lemma {:induction false} EffectOnWorkers(s: State, t: nat, from: nat)
    requires WellFormed(s) && t < |s.workers|
    ensures Effect(s, t, from).workers == if s.workers[t].Spawn? then s.workers + [Drain(s.workers[t].k)] else s.workers
  {
  }

  /** Once its stream is open, a worker only hands it on. */
  lemma {:induction false} EffectOnStream(s: State, t: nat, from: nat)
    requires WellFormed(s) && Calm(s) && t < |s.workers| && 0 < Distance(s.workers[t]) <= 5
    ensures var pc := s.workers[t]; var m := Effect(s, t, from);
            && pc.Owned() == Some(pc.k) && pc.k < |s.conns| == |m.conns|
            && if pc.Dial? then Fresh(m.conns[pc.k], from) else m.conns == s.conns
  {
    assert CalmWorker(s, s.workers[t]);
  }

  lemma ContinuesStep(s0: State, s: State, m: State, d: State)
    requires Next(s, m) && Continues(s0, m, d) && m.log == s.log
    ensures Continues(s0, s, d)
  {
    LeadsOn(s, m, d);
  }

  lemma ContinuesOn(s0: State, s: State, m: State, d: State)
    requires Continues(s0, s, m) && Continues(s0, m, d)
    ensures Continues(s0, s, d)
  {
    LeadsThrough(s, m, d);
  }

  lemma ContinuesHere(s0: State, s: State)
    requires Good(s0, s) && Open(s) && s.reconnect
    ensures Continues(s0, s, s)
  {
    LeadsNowhere(s);
  }

  /** One step of the way: it changes nothing that matters to delivery. */
  lemma {:induction false} ForwardStep(s0: State, s: State, t: nat, from: nat)
    requires Good(s0, s) && Open(s) && s.reconnect && t < |s.workers| && Distance(s.workers[t]) > 0
    requires StartsAt(s, s.cursor, from)
    ensures var m := Forward(s, t, from);
            Continues(s0, s, m) && Undelivered(s, m) && StartsAt(m, m.cursor, from)
  {
    var m := Forward(s, t, from);
    ForwardSteps(s0, s, t, from);
    ForwardKeeps(s, t, from);
    ContinuesHere(s0, m);
    ContinuesStep(s0, s, m, m);
  }

  lemma {:induction false} ForwardMoves(s: State, t: nat, from: nat)
    requires WellFormed(s) && t < |s.workers| && Distance(s.workers[t]) > 0
    ensures var m := Forward(s, t, from); var pc := s.workers[t];
            if pc.Spawn? then m.workers == s.workers[t := Exiting] + [Drain(pc.k)]
            else m.workers == s.workers[t := Onward(pc, t, |s.conns|)]
  {
    EffectOnWorkers(s, t, from);
  }

  /** A worker that has not opened its stream yet opens one that starts at `from`. */
  lemma {:induction false} ToStream(s0: State, s: State, t: nat, from: nat) returns (d: State, k: nat)
    requires Good(s0, s) && Open(s) && s.reconnect && t < |s.workers| && Distance(s.workers[t]) >= 5
    requires StartsAt(s, s.cursor, from)
    ensures Continues(s0, s, d) && Undelivered(s, d) && StartsAt(d, d.cursor, from)
    ensures t < |d.workers| && d.workers[t] == WantSpawn(k) && k < |d.conns| && Fresh(d.conns[k], from)
    decreases Distance(s.workers[t])
  {
    var m, pc := Forward(s, t, from), s.workers[t];
    ForwardStep(s0, s, t, from);
    ForwardMoves(s, t, from);
    if pc.Dial? {
      EffectOnStream(s, t, from);
      return m, pc.k;
    }
    OnwardNearer(pc, t, |s.conns|);
    d, k := ToStream(s0, m, t, from);
    ContinuesOn(s0, s, m, d);
  }

  /** A worker that has opened its stream hands it to a handler. */
  lemma {:induction false} ToHandler(s0: State, s: State, t: nat, k: nat, from: nat) returns (d: State, u: nat)
    requires Good(s0, s) && Open(s) && s.reconnect && t < |s.workers| && 0 < Distance(s.workers[t]) < 5
    requires s.workers[t].Owned() == Some(k) && StartsAt(s, s.cursor, from)
    ensures Continues(s0, s, d) && Undelivered(s, d) && Draining(d, u, k) && d.conns == s.conns
    decreases Distance(s.workers[t])
  {
    var m, pc := Forward(s, t, from), s.workers[t];
    ForwardStep(s0, s, t, from);
    ForwardMoves(s, t, from);
    EffectOnStream(s, t, from);
    if pc.Spawn? {
      return m, |s.workers|;
    }
    OnwardNearer(pc, t, |s.conns|);
    d, u := ToHandler(s0, m, t, k, from);
    ContinuesOn(s0, s, m, d);
  }

  /** Any worker on its way gets to a handler draining a stream, in the end a new one. */
  lemma {:induction false} ToDrain(s0: State, s: State, t: nat, from: nat) returns (d: State, u: nat, k: nat)
    requires Good(s0, s) && Open(s) && s.reconnect && t < |s.workers| && Distance(s.workers[t]) > 0
    requires StartsAt(s, s.cursor, from)
    ensures Continues(s0, s, d) && Undelivered(s, d) && Draining(d, u, k)
    ensures Distance(s.workers[t]) >= 5 ==> Fresh(d.conns[k], from)
  {
    if Distance(s.workers[t]) < 5 {
      EffectOnStream(s, t, from);
      k := s.workers[t].k;
      d, u := ToHandler(s0, s, t, k, from);
    } else {
      var m;
      m, k := ToStream(s0, s, t, from);
      d, u := ToHandler(s0, m, t, k, from);
      ContinuesOn(s0, s, m, d);
    }
  }

  // ---------- Draining a stream ----------

  /** One more durable event has been handled, and there still is a worker at work. */
  ghost predicate Delivers(s0: State, s: State, d: State) {
    Continues(s0, s, d) && |Durable(d.handled)| == |Durable(s.handled)| + 1 && Manned(d)
  }

  ghost predicate Manned(s: State) {
    exists u :: 0 <= u < |s.workers| && s.workers[u].Active()
  }

  lemma {:induction false} WorkerGoes(s0: State, s: State, t: nat, m: State)
    requires Good(s0, s) && Open(s) && s.reconnect && t < |s.workers| && WorkerStep(s, m, t)
    requires m.log == s.log && m.reconnect && Open(m)
    ensures Continues(s0, s, m)
  {
    assert Next(s, m);
    NextKeepsGood(s0, s, m);
    ContinuesHere(s0, m);
    ContinuesStep(s0, s, m, m);
  }

  lemma {:induction false} ReaderGoes(s0: State, s: State, k: nat, c: Conn)
    requires Good(s0, s) && Open(s) && s.reconnect && k < |s.conns|
    requires ParseMove(s.log, s.conns[k], c) || OfferMove(s.conns[k], c)
    ensures Continues(s0, s, SetConn(s, k, c))
  {
    var m := SetConn(s, k, c);
    assert ReaderStep(s, m, k);
    assert Next(s, m);
    NextKeepsGood(s0, s, m);
    ContinuesHere(s0, m);
    ContinuesStep(s0, s, m, m);
  }

  /** A handler that holds a frame handles it. */
  lemma {:induction false} FrameHandled(s0: State, s: State, t: nat) returns (d: State)
    requires Good(s0, s) && Open(s) && s.reconnect && t < |s.workers| && s.workers[t].Handle?
    ensures var k, ev := s.workers[t].k, s.workers[t].ev;
            && Continues(s0, s, d) && d.conns == s.conns && Draining(d, t, k)
            && if ev.id == "" then Undelivered(s, d) else Delivers(s0, s, d)
  {
    var k, ev := s.workers[t].k, s.workers[t].ev;
    d := Go(Record(s, ev), t, Drain(k));
    assert HandleStep(s, d, t);
    WorkerGoes(s0, s, t, d);
    DurableConcat(s.handled, [ev]);
    DurableOne(ev);
    assert d.workers[t].Active();
  }

  /** A handler takes the first frame out of the channel and handles it. */
  lemma {:induction false} FrameTaken(s0: State, s: State, t: nat, k: nat) returns (d: State)
    requires Good(s0, s) && Open(s) && s.reconnect && Draining(s, t, k) && s.conns[k].queue != []
    ensures var c := s.conns[k];
            && Continues(s0, s, d) && Draining(d, t, k) && d.conns[k] == c.(queue := c.queue[1..])
            && if c.queue[0].id == "" then Undelivered(s, d) else Delivers(s0, s, d)
  {
    var c := s.conns[k];
    var m := Go(SetConn(s, k, c.(queue := c.queue[1..])), t, Handle(k, c.queue[0]));
    assert DrainStep(s, m, t);
    WorkerGoes(s0, s, t, m);
    d := FrameHandled(s0, m, t);
    ContinuesOn(s0, s, m, d);
  }

  lemma DeliversOn(s0: State, s: State, m: State, d: State)
    requires Continues(s0, s, m) && Undelivered(s, m) && Delivers(s0, m, d)
    ensures Delivers(s0, s, d)
  {
    ContinuesOn(s0, s, m, d);
  }

  function ReaderRank(r: Reader): nat {
    match r
    case Offering(_) => 4
    case OfferingLast(_) => 4
    case Polling => 3
    case Parsing => 2
    case _ => 1
  }

  /** The reader's next move, when the channel is empty and nobody cancels the stream. */
  function ReaderOn(log: seq<Event>, c: Conn): Conn {
    match c.reader
    case Polling => c.(reader := Parsing)
    case Parsing => if c.next < |log| then c.(reader := Offering(log[c.next]), next := c.next + 1) else c.(reader := Gone)
    case Offering(ev) => c.(queue := c.queue + [ev], reader := Polling)
    case OfferingLast(ev) => c.(queue := c.queue + [ev], reader := Gone)
    case _ => c
  }

  lemma {:induction false} ReaderMoves(s0: State, s: State, t: nat, k: nat)
    requires Good(s0, s) && Open(s) && s.reconnect && Draining(s, t, k) && s.conns[k].queue == [] && !s.conns[k].reader.Gone?
    ensures var m := SetConn(s, k, ReaderOn(s.log, s.conns[k]));
            Continues(s0, s, m) && Undelivered(s, m) && Draining(m, t, k)
    ensures !s.conns[k].reader.Unborn?
  {
    var c := s.conns[k];
    assert CalmConn(s, c) && CalmWorker(s, s.workers[t]);
    ReaderGoes(s0, s, k, ReaderOn(s.log, c));
  }

  /** The stream is over and drained: the handler goes for a new one. */
  lemma {:induction false} ToNewStream(s0: State, s: State, t: nat, k: nat, from: nat) returns (d: State, u: nat, k': nat)
    requires Good(s0, s) && Open(s) && s.reconnect && Draining(s, t, k) && s.conns[k].queue == [] && s.conns[k].reader.Gone?
    requires StartsAt(s, s.cursor, from)
    ensures Continues(s0, s, d) && Undelivered(s, d) && Draining(d, u, k') && Fresh(d.conns[k'], from)
  {
    var m := Go(s, t, Dropped);
    assert DrainStep(s, m, t);
    WorkerGoes(s0, s, t, m);
    d, u, k' := ToDrain(s0, m, t, from);
    ContinuesOn(s0, s, m, d);
  }

  /** The reader parses the next logged event, offers it, and the handler takes it. */
  lemma {:induction false} LoggedEventTaken(s0: State, s: State, t: nat, k: nat) returns (d: State)
    requires Good(s0, s) && Open(s) && s.reconnect && Draining(s, t, k)
    requires var c := s.conns[k]; c.queue == [] && c.reader.Parsing? && c.next < |s.log|
    ensures Delivers(s0, s, d)
  {
    var m := SetConn(s, k, ReaderOn(s.log, s.conns[k]));
    ReaderMoves(s0, s, t, k);
    var n := SetConn(m, k, ReaderOn(m.log, m.conns[k]));
    ReaderMoves(s0, m, t, k);
    ContinuesOn(s0, s, m, n);
    d := FrameTaken(s0, n, t, k);
    DeliversOn(s0, s, n, d);
  }

  /** Whether the stream still owes a logged event, and what is on its way through the channel. */
  function Owing(log: seq<Event>, c: Conn): nat {
    if Reading(c.reader) && c.next < |log| then 0 else 1
  }

  function Underway(c: Conn): nat {
    |c.queue| + |Offered(c.reader)|
  }

  lemma ReaderNearer(log: seq<Event>, c: Conn)
    requires c.queue == [] && !c.reader.Gone? && !c.reader.Unborn? && !(c.reader.Parsing? && c.next < |log|)
    ensures var c' := ReaderOn(log, c);
            && Owing(log, c') <= Owing(log, c) && Underway(c') <= Underway(c)
            && ReaderRank(c'.reader) < ReaderRank(c.reader)
  {
  }

  lemma TakingNearer(log: seq<Event>, c: Conn)
    requires c.queue != []
    ensures var c' := c.(queue := c.queue[1..]);
            Owing(log, c') == Owing(log, c) && Underway(c') < Underway(c)
  {
  }

  /** Lexicographic progress on a stream. */
  predicate Nearer(log: seq<Event>, c: Conn, c': Conn) {
    || Owing(log, c') < Owing(log, c)
    || (Owing(log, c') == Owing(log, c) && Underway(c') < Underway(c))
    || (Owing(log, c') == Owing(log, c) && Underway(c') == Underway(c) && ReaderRank(c'.reader) < ReaderRank(c.reader))
  }

  /** One stage from a handler draining any stream: take what is in the channel, then what the
      stream still brings, and if it has ended open a new one. */
  lemma {:induction false} DrainStage(s0: State, s: State, t: nat, k: nat, from: nat)
      returns (d: State, u: nat, k': nat, delivered: bool)
    requires Good(s0, s) && Open(s) && s.reconnect && Draining(s, t, k)
    requires StartsAt(s, s.cursor, from) && from < |s.log|
    ensures if delivered then Delivers(s0, s, d)
            else Continues(s0, s, d) && Undelivered(s, d) && Draining(d, u, k') && Nearer(s.log, s.conns[k], d.conns[k'])
  {
    var c := s.conns[k];
    u, k', delivered := t, k, false;
    if c.queue != [] {
      d := FrameTaken(s0, s, t, k);
      delivered := c.queue[0].id != "";
      TakingNearer(s.log, c);
    } else if c.reader.Gone? {
      d, u, k' := ToNewStream(s0, s, t, k, from);
    } else if c.reader.Parsing? && c.next < |s.log| {
      d := LoggedEventTaken(s0, s, t, k);
      delivered := true;
    } else {
      d := SetConn(s, k, ReaderOn(s.log, c));
      ReaderMoves(s0, s, t, k);
      ReaderNearer(s.log, c);
    }
  }

  lemma {:induction false} FromDrain(s0: State, s: State, t: nat, k: nat, from: nat) returns (d: State)
    requires Good(s0, s) && Open(s) && s.reconnect && Draining(s, t, k)
    requires StartsAt(s, s.cursor, from) && from < |s.log|
    ensures Delivers(s0, s, d)
    decreases Owing(s.log, s.conns[k]), Underway(s.conns[k]), ReaderRank(s.conns[k].reader)
  {
    var m, u, k', delivered := DrainStage(s0, s, t, k, from);
    if delivered {
      return m;
    }
    d := FromDrain(s0, m, u, k', from);
    DeliversOn(s0, s, m, d);
  }

  /** From any active worker. */
  lemma {:induction false} FromAny(s0: State, s: State, t: nat, from: nat) returns (d: State)
    requires Good(s0, s) && Open(s) && s.reconnect && t < |s.workers| && s.workers[t].Active()
    requires StartsAt(s, s.cursor, from) && from < |s.log|
    ensures Delivers(s0, s, d)
  {
    var m, u, k := s, t, 0;
    if s.workers[t].Drain? {
      k := s.workers[t].k;
      d := FromDrain(s0, s, t, k, from);
      return;
    }
    if s.workers[t].Handle? {
      k := s.workers[t].k;
      m := FrameHandled(s0, s, t);
      if s.workers[t].ev.id != "" {
        return m;
      }
    } else {
      assert CalmWorker(s, s.workers[t]);
      m, u, k := ToDrain(s0, s, t, from);
    }
    d := FromDrain(s0, m, u, k, from);
    DeliversOn(s0, s, m, d);
  }

  // ---------- Theorems about whole runs ----------

  /** The server holds an event after the cursor. */
  ghost predicate Pending(s: State) {
    exists from: nat :: StartsAt(s, s.cursor, from) && from < |s.log|
  }

  /** After the first durable event the server starts exactly where delivery stands. */
  lemma {:induction false} StartsAtFront(s0: State, s: State)
    requires DeliveredRun(s0, s) && Durable(s.handled) != []
    ensures StartsAt(s, s.cursor, Front(s))
  {
  }

  lemma {:induction false} DeliversAll(s0: State, s: State) returns (d: State)
    requires Good(s0, s) && Open(s) && s.reconnect && Manned(s) && Durable(s.handled) != []
    ensures Continues(s0, s, d) && Front(d) == |d.log| && Durable(d.handled) != []
    decreases |s.log| - |Durable(s.handled)|
  {
    if Front(s) == |s.log| {
      ContinuesHere(s0, s);
      return s;
    }
    StartsAtFront(s0, s);
    var t :| 0 <= t < |s.workers| && s.workers[t].Active();
    var m := FromAny(s0, s, t, Front(s));
    d := DeliversAll(s0, m);
    ContinuesOn(s0, s, m, d);
  }

  /** All of the server's log from the start of delivery has been handled. */
  ghost predicate AllHandled(s: State) {
    && s.base < |s.log| && Durable(s.handled) == s.log[s.base..] && s.cursor == s.log[|s.log| - 1].id
  }

  lemma {:induction false} FrontAtEnd(s0: State, s: State)
    requires DeliveredRun(s0, s) && Front(s) == |s.log| && Durable(s.handled) != []
    ensures AllHandled(s)
  {
  }

  lemma {:induction false} DeliversFirst(s0: State, s: State) returns (d: State)
    requires Good(s0, s) && Open(s) && s.reconnect && Manned(s) && Pending(s)
    ensures Delivers(s0, s, d)
  {
    var from: nat :| StartsAt(s, s.cursor, from) && from < |s.log|;
    var t :| 0 <= t < |s.workers| && s.workers[t].Active();
    d := FromAny(s0, s, t, from);
  }

  lemma {:induction false} DeliversPending(s0: State, s: State) returns (d: State)
    requires Good(s0, s) && Open(s) && s.reconnect && Manned(s) && (Durable(s.handled) == [] ==> Pending(s))
    ensures Continues(s0, s, d) && AllHandled(d)
  {
    var m := s;
    if Durable(s.handled) == [] {
      m := DeliversFirst(s0, s);
    } else {
      ContinuesHere(s0, s);
    }
    d := DeliversAll(s0, m);
    ContinuesOn(s0, s, m, d);
    FrontAtEnd(s0, d);
  }

  /**
   Nothing is ever out of reach: whatever streams dropped, requests failed or frames were
   unparsable before, while the client is open, reconnects and some worker has not given up,
   the run can go on, without the server logging or anyone closing anything, until every
   logged event after the start of delivery has been handled.
   */
  lemma {:induction false} EverythingDeliverable(tr: seq<State>) returns (longer: seq<State>)
    requires Run(tr)
    requires var s := tr[|tr| - 1]; Open(s) && s.reconnect && Manned(s) && (Durable(s.handled) == [] ==> Pending(s))
    ensures Run(longer) && tr <= longer
    ensures var d := longer[|longer| - 1];
            !d.done && d.log == tr[|tr| - 1].log && AllHandled(d)
  {
    AlwaysGood(tr, |tr| - 1);
    var d := DeliversPending(tr[0], tr[|tr| - 1]);
    longer := RunGoesOn(tr, d);
  }

  lemma {:induction false} SomeStart(s: State) returns (from: nat)
    requires UniqueIds(s.log)
    ensures StartsAt(s, s.cursor, from)
  {
    if i :| 0 <= i < |s.log| && s.log[i].id == s.cursor {
      from := i + 1;
    } else {
      from := 0;
    }
  }

  lemma {:induction false} ToDial(s0: State, s: State, t: nat) returns (d: State, k: nat)
    requires Good(s0, s) && Open(s) && s.reconnect && t < |s.workers| && Distance(s.workers[t]) >= 5
    ensures Continues(s0, s, d) && d.handled == s.handled && d.cursor == s.cursor && t < |d.workers| && d.workers[t] == Dial(k)
    decreases Distance(s.workers[t])
  {
    if s.workers[t].Dial? {
      ContinuesHere(s0, s);
      return s, s.workers[t].k;
    }
    var from := SomeStart(s);
    var m := Forward(s, t, from);
    ForwardStep(s0, s, t, from);
    ForwardKeeps(s, t, from);
    ForwardMoves(s, t, from);
    OnwardNearer(s.workers[t], t, |s.conns|);
    d, k := ToDial(s0, m, t);
    ContinuesOn(s0, s, m, d);
  }

  /** A handler whose stream has dropped, or whose last request failed, can get to its next
      request on its own, and that request asks for what follows the cursor. */
  lemma {:induction false} CanReconnect(tr: seq<State>, t: nat) returns (longer: seq<State>, k: nat)
    requires Run(tr)
    requires var s := tr[|tr| - 1];
             Open(s) && s.reconnect && t < |s.workers| && (s.workers[t].Dropped? || s.workers[t].Failed?)
    ensures Run(longer) && tr <= longer
    ensures var s, d := tr[|tr| - 1], longer[|longer| - 1];
            && !d.done && d.log == s.log && d.handled == s.handled && d.cursor == s.cursor
            && t < |d.workers| && d.workers[t] == Dial(k) && k < |d.conns| && d.conns[k].header == s.cursor
  {
    AlwaysGood(tr, |tr| - 1);
    var d;
    d, k := ToDial(tr[0], tr[|tr| - 1], t);
    assert WorkerFlow(d, d.workers[t]);
    longer := RunGoesOn(tr, d);
  }

  /** No channel ever holds more than its hundred frames, and nothing is cancelled early. */
  lemma QueueBounded(tr: seq<State>, i: nat, k: nat)
    requires Run(tr) && i < |tr| && k < |tr[i].conns|
    ensures |tr[i].conns[k].queue| <= 100 && (tr[i].conns[k].cancelled ==> tr[i].done)
  {
    AlwaysGood(tr, i);
    assert CalmConn(tr[i], tr[i].conns[k]);
  }

  // ---------- Who may stop, and who never starts ----------

  /** A worker's way out of activity while the client is open. */
  lemma {:induction false} WorkerStopsOnly(s: State, s': State, t: nat)
    requires WellFormed(s) && Calm(s) && t < |s.workers| && WorkerStep(s, s', t) && s.reconnect && !s.done
    requires s.workers[t].Active() && !s'.workers[t].Active()
    ensures s.workers[t].Failed? || (s.workers[t].Spawn? && |s'.workers| > |s.workers| && s'.workers[|s.workers|].Active())
  {
    assert CalmWorker(s, s.workers[t]);
  }

  lemma {:induction false} WorkerKeepsCharge(s: State, s': State, t: nat, u: nat)
    requires WellFormed(s) && Calm(s) && s.reconnect && !s.done && t < |s.workers| && WorkerStep(s, s', t)
    requires WorkerShape(s, s', t) && u < |s.workers| && s.workers[u].Active() && !s.workers[u].Failed?
    ensures Manned(s')
  {
    if t == u && !s'.workers[t].Active() {
      WorkerStopsOnly(s, s', t);
    } else {
      assert s'.workers[u].Active();
    }
  }

  lemma {:induction false} NextKeepsCharge(s: State, s': State, u: nat)
    requires Safe(s) && Calm(s) && s.reconnect && !s.done && Next(s, s')
    requires u < |s.workers| && s.workers[u].Active() && !s.workers[u].Failed?
    ensures Manned(s')
  {
    if t :| 0 <= t < |s.workers| && WorkerStep(s, s', t) {
      WorkerStepShape(s, s', t);
      WorkerKeepsCharge(s, s', t, u);
    } else {
      assert s'.workers[u] == s.workers[u];
    }
  }

  /** The right to connect and drain is never lost: in every step of every run that reconnects
      and is not closed, somebody stays in charge, unless the one in charge has just had a
      request fail and gives up. */
  lemma {:induction false} ChargeKept(tr: seq<State>, i: nat, u: nat)
    requires Run(tr) && i + 1 < |tr| && tr[i].reconnect && !tr[i].done
    requires u < |tr[i].workers| && tr[i].workers[u].Active() && !tr[i].workers[u].Failed?
    ensures Manned(tr[i + 1])
  {
    AlwaysGood(tr, i);
    assert StepAt(tr, i);
    NextKeepsCharge(tr[i], tr[i + 1], u);
  }

  /** Without reconnection a handler drains its stream and ends. */
  predicate OneShot(pc: Pc) { pc.Drain? || pc.Handle? || pc.Dropped? || pc.Exiting? || pc.Finished? }

  ghost predicate AllOneShot(s: State) {
    !s.reconnect && forall t :: 0 < t < |s.workers| ==> OneShot(s.workers[t])
  }

  lemma {:induction false} OneShotStays(s: State, s': State, t: nat)
    requires WellFormed(s) && t < |s.workers| && WorkerStep(s, s', t) && OneShot(s.workers[t]) && !s.reconnect
    ensures OneShot(s'.workers[t])
  {
    if
    case DrainStep(s, s', t) =>
    case HandleStep(s, s', t) =>
    case BackoffStep(s, s', t) =>
    case LeaveStep(s, s', t) =>
    case EnterStep(s, s', t) || PublishStep(s, s', t) || ClearStep(s, s', t) || DialStep(s, s', t) =>
    case AddStep(s, s', t) || SpawnStep(s, s', t) || RefuseStep(s, s', t) || FailedStep(s, s', t) =>
  }

  lemma {:induction false} WorkerKeepsOneShot(s: State, s': State, t: nat)
    requires WellFormed(s) && AllOneShot(s) && s'.reconnect == s.reconnect
    requires t < |s.workers| && WorkerStep(s, s', t) && WorkerShape(s, s', t)
    ensures AllOneShot(s')
  {
    if t > 0 {
      OneShotStays(s, s', t);
    }
  }

  lemma {:induction false} NextKeepsOneShot(s: State, s': State)
    requires Safe(s) && Next(s, s') && AllOneShot(s) && s'.reconnect == s.reconnect
    ensures AllOneShot(s')
  {
    if t :| 0 <= t < |s.workers| && WorkerStep(s, s', t) {
      WorkerStepShape(s, s', t);
      WorkerKeepsOneShot(s, s', t);
    }
  }

  lemma {:induction false} WorkerKeepsOption(s: State, s': State, t: nat)
    requires WellFormed(s) && t < |s.workers| && WorkerStep(s, s', t)
    ensures s'.reconnect == s.reconnect
  {
    if
    case EnterStep(s, s', t) || PublishStep(s, s', t) || ClearStep(s, s', t) || DialStep(s, s', t) =>
    case AddStep(s, s', t) || SpawnStep(s, s', t) || RefuseStep(s, s', t) || FailedStep(s, s', t) =>
    case DrainStep(s, s', t) || HandleStep(s, s', t) || BackoffStep(s, s', t) || LeaveStep(s, s', t) =>
  }

  lemma {:induction false} NextKeepsOption(s: State, s': State)
    requires Next(s, s')
    ensures s'.reconnect == s.reconnect
  {
    if t :| 0 <= t < |s.workers| && WorkerStep(s, s', t) {
      WorkerKeepsOption(s, s', t);
    }
  }

  /** With Reconnect off nobody but Start ever connects, in any run. */
  lemma {:induction false} NeverReconnects(tr: seq<State>, i: nat)
    requires Run(tr) && i < |tr| && !tr[0].reconnect
    ensures AllOneShot(tr[i])
    ensures forall t :: 0 < t < |tr[i].workers| ==> !tr[i].workers[t].InConnect() && !tr[i].workers[t].Backoff?
  {
    if i > 0 {
      NeverReconnects(tr, i - 1);
      AlwaysSafe(tr, i - 1);
      assert StepAt(tr, i - 1);
      NextKeepsOption(tr[i - 1], tr[i]);
      NextKeepsOneShot(tr[i - 1], tr[i]);
    }
  }

  /** So a handler whose stream has dropped can only end. */
  lemma {:induction false} DroppedEnds(s: State, s': State, t: nat)
    requires WellFormed(s) && t < |s.workers| && s.workers[t].Dropped? && !s.reconnect && WorkerStep(s, s', t)
    ensures s' == Go(s, t, Exiting)
  {
  }
}
