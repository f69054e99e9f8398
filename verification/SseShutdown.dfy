/**
 Shutdown of the SSE client: once `done` is closed, no run is ever stuck before the WaitGroup
 reaches zero, so a Stop, which disconnects and waits, can always return.
 */
module SseShutdown {
  import opened Prelude
  import opened SseModel
  import opened SseSafety
  import opened SseProgress

  /** Where worker t gets next when `done` is closed and its requests fail. */
  function Out(pc: Pc, reconnect: bool, n: nat): Pc {
    match pc
    case Idle => Enter
    case Drain(_) => Exiting
    case Handle(k, _) => Drain(k)
    case Dropped => if reconnect then Backoff else Exiting
    case Backoff => Exiting
    case Enter => Exiting
    case NewConn => WantConn(n)
    case WantConn(k) => CheckConn(k)
    case CheckConn(k) => RefuseConn(k)
    case Publish(k) => Dial(k)
    case RefuseConn(k) => CloseConn(k)
    case Dial(k) => WantClear(k)
    case WantClear(k) => ClearConn(k)
    case ClearConn(_) => Failed
    case Failed => Exiting
    case WantSpawn(k) => CheckSpawn(k)
    case CheckSpawn(k) => RefuseSpawn(k)
    case RefuseSpawn(k) => CloseConn(k)
    case CloseConn(_) => Exiting
    case Add(k) => Spawn(k)
    case Spawn(_) => Exiting
    case Exiting => Finished
    case Finished => Finished
  }

  /** What it changes on the way. */
  function OutEffect(s: State, t: nat): State
    requires WellFormed(s) && t < |s.workers|
  {
    match s.workers[t]
    case Handle(_, ev) => Record(s, ev)
    case NewConn => s.(conns := s.conns + [Conn(s.cursor, false, false, Unborn, 0, [])])
    case WantConn(_) => s.(connMu := Some(Worker(t)))
    case Publish(k) => s.(conn := Some(k), connMu := None)
    case RefuseConn(_) => s.(connMu := None)
    case Dial(k) => SetConn(s, k, s.conns[k].(dialFailed := true))
    case WantClear(_) => s.(connMu := Some(Worker(t)))
    case ClearConn(k) => s.(connMu := None, conn := if s.conn == Some(k) then None else s.conn)
    case WantSpawn(_) => s.(spawnMu := Some(Worker(t)))
    case RefuseSpawn(_) => s.(spawnMu := None)
    case CloseConn(k) => Cancel(s, k)
    case Spawn(k) => s.(workers := s.workers + [Drain(k)])
    case Exiting => s.(wg := if t == 0 then s.wg else s.wg - 1)
    case _ => s
  }

  function Outward(s: State, t: nat): State
    requires WellFormed(s) && t < |s.workers|
  {
    Go(OutEffect(s, t), t, Out(s.workers[t], s.reconnect, |s.conns|))
  }

  /** A bound on the steps that are left until the worker, and what it spawns, is out. */
  function ToGo(pc: Pc): nat {
    match pc
    case Finished => 0
    case Exiting => 1
    case Drain(_) => 2
    case Backoff => 2
    case Enter => 2
    case Failed => 2
    case CloseConn(_) => 2
    case Idle => 3
    case Handle(_, _) => 3
    case Dropped => 3
    case RefuseConn(_) => 3
    case RefuseSpawn(_) => 3
    case ClearConn(_) => 3
    case Spawn(_) => 4
    case Add(_) => 5
    case CheckConn(_) => 4
    case CheckSpawn(_) => 4
    case WantClear(_) => 4
    case WantConn(_) => 5
    case WantSpawn(_) => 5
    case Dial(_) => 5
    case Publish(_) => 6
    case NewConn => 6
  }

  lemma OutNearer(pc: Pc, reconnect: bool, n: nat)
    requires !pc.Finished?
    ensures ToGo(Out(pc, reconnect, n)) + (if pc.Spawn? then ToGo(Drain(pc.k)) else 0) < ToGo(pc)
  {
  }

  function AllToGo(workers: seq<Pc>): nat {
    if workers == [] then 0 else AllToGo(workers[..|workers| - 1]) + ToGo(workers[|workers| - 1])
  }

  lemma {:induction false} AllToGoUpdate(workers: seq<Pc>, t: nat, pc: Pc)
    requires t < |workers|
    ensures AllToGo(workers[t := pc]) == AllToGo(workers) - ToGo(workers[t]) + ToGo(pc)
  {
    var n := |workers| - 1;
    if t == n {
      assert workers[t := pc][..n] == workers[..n];
    } else {
      assert workers[t := pc][..n] == workers[..n][t := pc];
      AllToGoUpdate(workers[..n], t, pc);
    }
  }

  lemma AllToGoAppend(workers: seq<Pc>, pcs: seq<Pc>)
    requires |pcs| <= 1
    ensures AllToGo(workers + pcs) == AllToGo(workers) + (if pcs == [] then 0 else ToGo(pcs[0]))
  {
    if pcs == [] {
      assert workers + pcs == workers;
    } else {
      assert (workers + pcs)[..|workers|] == workers;
    }
  }

  predicate WantsLock(pc: Pc) { pc.WantConn? || pc.WantClear? || pc.WantSpawn? }

  ghost predicate NoLockHeld(s: State) { s.connMu == None && s.spawnMu == None }

  lemma {:induction false} EarlyOut(s: State, t: nat)
    requires Safe(s) && s.done && t < |s.workers|
    requires var pc := s.workers[t]; pc.Idle? || pc.Drain? || pc.Handle? || pc.Dropped? || pc.Backoff? || pc.Failed?
    ensures WorkerStep(s, Outward(s, t), t)
  {
    var m := Outward(s, t);
    assert FailedStep(s, m, t) || DrainStep(s, m, t) || HandleStep(s, m, t) || BackoffStep(s, m, t);
  }

  lemma {:induction false} ConnectOut(s: State, t: nat)
    requires Safe(s) && s.done && t < |s.workers| && (WantsLock(s.workers[t]) ==> NoLockHeld(s))
    requires var pc := s.workers[t];
             pc.Enter? || pc.NewConn? || pc.WantConn? || pc.CheckConn? || pc.Publish? || pc.Dial? || pc.WantClear? || pc.ClearConn?
    ensures WorkerStep(s, Outward(s, t), t)
  {
    var m := Outward(s, t);
    assert EnterStep(s, m, t) || PublishStep(s, m, t) || DialStep(s, m, t) || ClearStep(s, m, t);
  }

  lemma {:induction false} LateOut(s: State, t: nat)
    requires Safe(s) && s.done && t < |s.workers| && (WantsLock(s.workers[t]) ==> NoLockHeld(s))
    requires var pc := s.workers[t];
             pc.WantSpawn? || pc.CheckSpawn? || pc.Spawn? || pc.RefuseConn? || pc.RefuseSpawn? || pc.CloseConn? || pc.Exiting?
    ensures WorkerStep(s, Outward(s, t), t)
  {
    var m := Outward(s, t);
    assert AddStep(s, m, t) || SpawnStep(s, m, t) || RefuseStep(s, m, t) || LeaveStep(s, m, t);
  }

  lemma {:induction false} OutwardStep(s: State, t: nat)
    requires Safe(s) && s.done && t < |s.workers| && !s.workers[t].Finished?
    requires WantsLock(s.workers[t]) ==> NoLockHeld(s)
    ensures var m := Outward(s, t);
            && Next(s, m) && Safe(m) && m.done
            && m.workers == s.workers[t := Out(s.workers[t], s.reconnect, |s.conns|)]
                            + if s.workers[t].Spawn? then [Drain(s.workers[t].k)] else []
  {
    var pc, m := s.workers[t], Outward(s, t);
    if pc.Idle? || pc.Drain? || pc.Handle? || pc.Dropped? || pc.Backoff? || pc.Failed? {
      EarlyOut(s, t);
    } else if pc.WantSpawn? || pc.CheckSpawn? || pc.Spawn? || pc.RefuseConn? || pc.RefuseSpawn? || pc.CloseConn? || pc.Exiting? {
      LateOut(s, t);
    } else {
      ConnectOut(s, t);
    }
    assert Next(s, m);
    NextKeepsSafe(s, m);
  }

  /** A Disconnect call that holds a lock lets go of it in its next step, since `done` is
      closed already. */
  lemma {:induction false} LocksFreed(s: State, t: nat) returns (d: State)
    requires Safe(s) && s.done && t < |s.workers| && s.workers[t].Active() && Holds(s.workers[t]) == NoLock
    ensures Leads(s, d) && Safe(d) && d.done && d.workers == s.workers && NoLockHeld(d)
    decreases (if s.connMu == None then 0 else 1) + (if s.spawnMu == None then 0 else 1)
  {
    assert forall u :: 0 <= u < |s.workers| && u != t ==> !s.workers[u].Active();
    if NoLockHeld(s) {
      LeadsNowhere(s);
      return s;
    }
    var h := if s.connMu.Some? then s.connMu.value else s.spawnMu.value;
    var m := CloserOut(s, h);
    d := LocksFreed(m, t);
    LeadsOn(s, m, d);
  }

  lemma {:induction false} CloserOut(s: State, h: Holder) returns (m: State)
    requires Safe(s) && s.done && h.Closer? && Held(s, h)
    ensures Next(s, m) && Safe(m) && m.done && m.workers == s.workers
    ensures (m.connMu == s.connMu && m.spawnMu == None && s.spawnMu.Some?)
            || (m.spawnMu == s.spawnMu && m.connMu == None && s.connMu.Some?)
  {
    m := HolderStep(s, h);
    CloserReleasesLocks(s, h.d);
    assert Next(s, m);
    NextKeepsSafe(s, m);
  }

  ghost predicate AllFinished(s: State) {
    forall t :: 0 <= t < |s.workers| ==> s.workers[t].Finished?
  }

  /** One step out, once both locks are free if the worker wants one. */
  lemma {:induction false} OneOut(s: State, t: nat) returns (d: State)
    requires Safe(s) && s.done && t < |s.workers| && !s.workers[t].Finished?
    ensures Leads(s, d) && Safe(d) && d.done && AllToGo(d.workers) < AllToGo(s.workers)
  {
    var pc, m := s.workers[t], s;
    if WantsLock(pc) {
      m := LocksFreed(s, t);
    } else {
      LeadsNowhere(s);
    }
    d := Outward(m, t);
    OutwardStep(m, t);
    LeadsNowhere(d);
    LeadsOn(m, d, d);
    LeadsThrough(s, m, d);
    var pc' := Out(pc, m.reconnect, |m.conns|);
    OutNearer(pc, m.reconnect, |m.conns|);
    AllToGoUpdate(s.workers, t, pc');
    AllToGoAppend(s.workers[t := pc'], if pc.Spawn? then [Drain(pc.k)] else []);
  }

  lemma {:induction false} AllOut(s: State) returns (d: State)
    requires Safe(s) && s.done
    ensures Leads(s, d) && Safe(d) && d.done && AllFinished(d)
    decreases AllToGo(s.workers)
  {
    if t :| 0 <= t < |s.workers| && !s.workers[t].Finished? {
      var m := OneOut(s, t);
      d := AllOut(m);
      LeadsThrough(s, m, d);
    } else {
      LeadsNowhere(s);
      d := s;
    }
  }

  lemma {:induction false} FinishedOweNothing(workers: seq<Pc>)
    requires forall t :: 0 <= t < |workers| ==> workers[t].Finished?
    ensures Owed(workers) == 0
  {
    if workers != [] {
      FinishedOweNothing(workers[..|workers| - 1]);
    }
  }

  /** Wait can return: from every state of every run in which `done` is closed, wherever the
      threads are and whatever locks they hold, the run can go on until every thread has
      finished and the WaitGroup is zero. */
  lemma {:induction false} StopCanFinish(tr: seq<State>) returns (longer: seq<State>)
    requires Run(tr) && tr[|tr| - 1].done
    ensures Run(longer) && tr <= longer
    ensures var d := longer[|longer| - 1]; d.done && d.wg == 0 && AllFinished(d)
  {
    AlwaysSafe(tr, |tr| - 1);
    var d := AllOut(tr[|tr| - 1]);
    FinishedOweNothing(d.workers);
    longer := RunGoesOn(tr, d);
  }
}
