/**
 Safety of the SSE client over every interleaving: mutual exclusion, one connect owner,
 an exact WaitGroup, `done` closed once, nothing spawned after shutdown, no leaked stream.
 */
module SseSafety {
  import opened Prelude
  import opened SseModel

  // ---------- The invariant ----------

  datatype Lock = NoLock | ConnLock | SpawnLock

  function Holds(pc: Pc): Lock {
    match pc
    case CheckConn(_) => ConnLock
    case Publish(_) => ConnLock
    case RefuseConn(_) => ConnLock
    case ClearConn(_) => ConnLock
    case CheckSpawn(_) => SpawnLock
    case Add(_) => SpawnLock
    case RefuseSpawn(_) => SpawnLock
    case _ => NoLock
  }

  ghost predicate LockTable(s: State) {
    && (forall t :: 0 <= t < |s.workers| ==>
          && (Holds(s.workers[t]) == ConnLock <==> s.connMu == Some(Worker(t)))
          && (Holds(s.workers[t]) == SpawnLock <==> s.spawnMu == Some(Worker(t))))
    && (forall d :: 0 <= d < |s.closers| ==>
          && (s.closers[d].Sweep? <==> s.connMu == Some(Closer(d)))
          && (s.closers[d].CloseDone? || s.closers[d].LeaveSpawn? <==> s.spawnMu == Some(Closer(d))))
    && HolderExists(s, s.connMu) && HolderExists(s, s.spawnMu)
  }

  predicate HolderExists(s: State, lock: Option<Holder>) {
    match lock
    case None => true
    case Some(Worker(t)) => t < |s.workers|
    case Some(Closer(d)) => d < |s.closers|
  }

  ghost predicate SingleOwner(s: State) {
    forall i, j :: 0 <= i < j < |s.workers| ==> !(s.workers[i].Active() && s.workers[j].Active())
  }

  /** What worker t adds to the WaitGroup: one per unfinished handler, and one more while a
      spawner sits between wg.Add and its go statement. */
  function Weight(t: nat, pc: Pc): nat {
    (if t > 0 && !pc.Finished? then 1 else 0) + (if pc.Spawn? then 1 else 0)
  }

  function Owed(workers: seq<Pc>): nat {
    if workers == [] then 0
    else Owed(workers[..|workers| - 1]) + Weight(|workers| - 1, workers[|workers| - 1])
  }

  predicate InOnce(pc: CloserPc) { pc.NeedSpawn? || pc.CloseDone? || pc.LeaveSpawn? }

  /** `closeOnce` and `done`: one caller at a time runs the body, which closes `done` once. */
  ghost predicate Gate(s: State) {
    && (s.once == NotRun ==> !s.done)
    && (s.once == Completed ==> s.done)
    && (s.once != Running ==> forall d :: 0 <= d < |s.closers| ==> !InOnce(s.closers[d]))
    && (forall d, e :: 0 <= d < e < |s.closers| ==> !(InOnce(s.closers[d]) && InOnce(s.closers[e])))
    && (forall d :: 0 <= d < |s.closers| ==>
          && (s.closers[d].NeedSpawn? || s.closers[d].CloseDone? ==> !s.done)
          && (s.closers[d].LeaveSpawn? || s.closers[d].NeedConn? || s.closers[d].Sweep? || s.closers[d].Returned? ==> s.done))
    && (forall t :: 0 <= t < |s.workers| && s.workers[t].Add? ==> !s.done)
  }

  ghost predicate SomeoneReturned(s: State) {
    exists d :: 0 <= d < |s.closers| && s.closers[d].Returned?
  }

  /** Once a Disconnect has returned, no connection is published or about to be. */
  ghost predicate Swept(s: State) {
    SomeoneReturned(s) ==>
      s.conn == None && forall t :: 0 <= t < |s.workers| ==> !s.workers[t].Publish?
  }

  /** A connection that only its worker, still inside Connect, can reach. */
  predicate Private(pc: Pc, k: nat) {
    (pc.WantConn? || pc.CheckConn? || pc.Publish? || pc.RefuseConn? || pc.CloseConn?) && pc.Owned() == Some(k)
  }

  ghost predicate HeldPrivately(s: State, k: nat) {
    exists t :: 0 <= t < |s.workers| && Private(s.workers[t], k)
  }

  predicate Unopened(pc: Pc) { pc.WantConn? || pc.CheckConn? || pc.Publish? || pc.RefuseConn? || pc.Dial? }

  /** What a worker's program counter says about its own connection. */
  predicate OwnsRightly(s: State, pc: Pc)
    requires OwnedExists(s, pc)
  {
    && (Unopened(pc) ==> s.conns[pc.Owned().value].reader.Unborn?)
    && (pc.WantClear? || pc.ClearConn? ==> s.conns[pc.Owned().value].dialFailed)
  }

  ghost predicate AllOwnRightly(s: State)
    requires WellFormed(s)
  {
    forall t :: 0 <= t < |s.workers| ==> OwnsRightly(s, s.workers[t])
  }

  /** While anyone may still drain or connect, every connection but its own is over. */
  ghost predicate OthersOver(s: State) {
    (forall t, k :: 0 <= t < |s.workers| && 0 <= k < |s.conns| ==>
          s.workers[t].Active() && s.workers[t].Owned() != Some(k) ==> !s.conns[k].Live())
  }

  /** A live connection is published in Client.conn or private to a worker inside Connect. */
  ghost predicate LiveReachable(s: State) {
    forall k :: 0 <= k < |s.conns| && s.conns[k].Live() && s.conn != Some(k) ==> HeldPrivately(s, k)
  }

  ghost predicate Safe(s: State) {
    WellFormed(s) && LockTable(s) && SingleOwner(s) && s.wg == Owed(s.workers) && Gate(s) && Swept(s)
    && AllOwnRightly(s) && OthersOver(s) && LiveReachable(s)
  }

  // ---------- Preservation ----------

  lemma {:induction false} OwedUpdate(workers: seq<Pc>, t: nat, pc: Pc)
    requires t < |workers|
    ensures Owed(workers[t := pc]) == Owed(workers) - Weight(t, workers[t]) + Weight(t, pc)
  {
    var n := |workers| - 1;
    if t == n {
      assert workers[t := pc][..n] == workers[..n];
    } else {
      assert workers[t := pc][..n] == workers[..n][t := pc];
      OwedUpdate(workers[..n], t, pc);
    }
  }

  lemma {:induction false} OwedAppend(workers: seq<Pc>, pc: Pc)
    ensures Owed(workers + [pc]) == Owed(workers) + Weight(|workers|, pc)
  {
    assert (workers + [pc])[..|workers|] == workers;
  }

  /** What any worker step may do to the shared state, with the program counters abstracted:
      one worker moves, at most one new handler appears, locks are taken only when free. */
  ghost predicate WorkerShape(s: State, s': State, t: nat)
    requires t < |s.workers|
  {
    && s'.done == s.done && s'.once == s.once && s'.closers == s.closers
    && |s.workers| <= |s'.workers| <= |s.workers| + 1 && |s.conns| <= |s'.conns|
    && (forall i :: 0 <= i < |s.workers| && i != t ==> s'.workers[i] == s.workers[i])
    && var pc, pc' := s.workers[t], s'.workers[t];
    && LockMove(s, s', t, Holds(pc), Holds(pc'))
    && !pc.Finished? && (pc'.Active() ==> pc.Active()) && (pc'.Spawn? ==> pc.Add?)
    && (pc'.Add? || pc'.Publish? ==> !s.done)
    && s'.wg - s.wg == Weight(t, pc') - Weight(t, pc) + (if |s'.workers| > |s.workers| then 1 else 0)
    && (s'.conn == s.conn || (pc.Publish? && s'.conn == pc.Owned())
        || (pc.ClearConn? && s.conn == pc.Owned() && s'.conn == None))
    && (pc'.Owned().Some? ==> pc'.Owned() == pc.Owned() || (pc.NewConn? && pc'.Owned() == Some(|s.conns|) && |s.conns| < |s'.conns|))
    && (|s'.workers| > |s.workers| ==>
          pc.Spawn? && pc'.Exiting? && s'.workers[|s.workers|].Drain? && s'.workers[|s.workers|].Owned() == pc.Owned())
  }

  predicate LockMove(s: State, s': State, t: nat, before: Lock, after: Lock) {
    match (before, after)
    case (NoLock, ConnLock) => s.connMu == None && s'.connMu == Some(Worker(t)) && s'.spawnMu == s.spawnMu
    case (NoLock, SpawnLock) => s.spawnMu == None && s'.spawnMu == Some(Worker(t)) && s'.connMu == s.connMu
    case (ConnLock, NoLock) => s'.connMu == None && s'.spawnMu == s.spawnMu
    case (SpawnLock, NoLock) => s'.spawnMu == None && s'.connMu == s.connMu
    case _ => before == after && s'.connMu == s.connMu && s'.spawnMu == s.spawnMu
  }

  /** What a worker step may do to connections: only its own changes, a new one is its
      own, none comes back to life, and it lets go of its own only when that one is over,
      published, or handed to the handler it spawns. */
  ghost predicate ConnShape(s: State, s': State, t: nat)
    requires WellFormed(s) && t < |s.workers| && WorkerShape(s, s', t)
  {
    var pc, pc' := s.workers[t], s'.workers[t];
    && (forall k :: 0 <= k < |s.conns| && pc.Owned() != Some(k) ==> s'.conns[k] == s.conns[k])
    && (pc.Owned().Some? ==>
          var k := pc.Owned().value;
          s'.conns[k].Live() ==>
            && s.conns[k].Live()
            && (pc'.Owned() == Some(k) || !pc'.Active())
            && (Private(pc, k) && !Private(pc', k) ==> s'.conn == Some(k)))
    && (|s'.conns| > |s.conns| ==> |s'.conns| == |s.conns| + 1 && Private(pc', |s.conns|))
    && OwnedExists(s', pc') && OwnsRightly(s', pc')
  }

  lemma {:induction false} EnterStepShape(s: State, s': State, t: nat)
    requires WellFormed(s) && t < |s.workers| && EnterStep(s, s', t) && OwnsRightly(s, s.workers[t])
    ensures WorkerShape(s, s', t) && ConnShape(s, s', t)
  {
  }

  lemma {:induction false} PublishStepShape(s: State, s': State, t: nat)
    requires WellFormed(s) && t < |s.workers| && PublishStep(s, s', t) && OwnsRightly(s, s.workers[t])
    ensures WorkerShape(s, s', t) && ConnShape(s, s', t)
  {
  }

  lemma {:induction false} DialStepShape(s: State, s': State, t: nat)
    requires WellFormed(s) && t < |s.workers| && DialStep(s, s', t) && OwnsRightly(s, s.workers[t])
    ensures WorkerShape(s, s', t) && ConnShape(s, s', t)
  {
  }

  lemma {:induction false} ClearStepShape(s: State, s': State, t: nat)
    requires WellFormed(s) && t < |s.workers| && ClearStep(s, s', t) && OwnsRightly(s, s.workers[t])
    ensures WorkerShape(s, s', t) && ConnShape(s, s', t)
  {
  }

  lemma {:induction false} AddStepShape(s: State, s': State, t: nat)
    requires WellFormed(s) && t < |s.workers| && AddStep(s, s', t) && OwnsRightly(s, s.workers[t])
    ensures WorkerShape(s, s', t) && ConnShape(s, s', t)
  {
  }

  lemma {:induction false} SpawnStepShape(s: State, s': State, t: nat)
    requires WellFormed(s) && t < |s.workers| && SpawnStep(s, s', t) && OwnsRightly(s, s.workers[t])
    ensures WorkerShape(s, s', t) && ConnShape(s, s', t)
  {
  }

  lemma {:induction false} RefuseStepShape(s: State, s': State, t: nat)
    requires WellFormed(s) && t < |s.workers| && RefuseStep(s, s', t) && OwnsRightly(s, s.workers[t])
    ensures WorkerShape(s, s', t) && ConnShape(s, s', t)
  {
  }

  lemma {:induction false} LeaveStepShape(s: State, s': State, t: nat)
    requires WellFormed(s) && t < |s.workers| && LeaveStep(s, s', t) && OwnsRightly(s, s.workers[t])
    ensures WorkerShape(s, s', t) && ConnShape(s, s', t)
  {
  }

  lemma {:induction false} FailedStepShape(s: State, s': State, t: nat)
    requires WellFormed(s) && t < |s.workers| && FailedStep(s, s', t) && OwnsRightly(s, s.workers[t])
    ensures WorkerShape(s, s', t) && ConnShape(s, s', t)
  {
  }

  lemma {:induction false} BackoffStepShape(s: State, s': State, t: nat)
    requires WellFormed(s) && t < |s.workers| && BackoffStep(s, s', t) && OwnsRightly(s, s.workers[t])
    ensures WorkerShape(s, s', t) && ConnShape(s, s', t)
  {
  }

  lemma {:induction false} DrainStepShape(s: State, s': State, t: nat)
    requires WellFormed(s) && t < |s.workers| && DrainStep(s, s', t) && OwnsRightly(s, s.workers[t])
    ensures WorkerShape(s, s', t) && ConnShape(s, s', t)
  {
  }

  lemma {:induction false} HandleStepShape(s: State, s': State, t: nat)
    requires WellFormed(s) && t < |s.workers| && HandleStep(s, s', t) && OwnsRightly(s, s.workers[t])
    ensures WorkerShape(s, s', t) && ConnShape(s, s', t)
  {
  }

  lemma {:induction false} WorkerStepShape(s: State, s': State, t: nat)
    requires WellFormed(s) && t < |s.workers| && WorkerStep(s, s', t) && OwnsRightly(s, s.workers[t])
    ensures WorkerShape(s, s', t) && ConnShape(s, s', t)
  {
    if
    case EnterStep(s, s', t) => EnterStepShape(s, s', t);
    case PublishStep(s, s', t) => PublishStepShape(s, s', t);
    case DialStep(s, s', t) => DialStepShape(s, s', t);
    case ClearStep(s, s', t) => ClearStepShape(s, s', t);
    case AddStep(s, s', t) => AddStepShape(s, s', t);
    case SpawnStep(s, s', t) => SpawnStepShape(s, s', t);
    case RefuseStep(s, s', t) => RefuseStepShape(s, s', t);
    case LeaveStep(s, s', t) => LeaveStepShape(s, s', t);
    case FailedStep(s, s', t) => FailedStepShape(s, s', t);
    case BackoffStep(s, s', t) => BackoffStepShape(s, s', t);
    case DrainStep(s, s', t) => DrainStepShape(s, s', t);
    case HandleStep(s, s', t) => HandleStepShape(s, s', t);
  }

  lemma {:induction false} WorkerKeepsFrame(s: State, s': State, t: nat)
    requires WellFormed(s) && LockTable(s) && t < |s.workers| && WorkerShape(s, s', t)
    ensures WellFormed(s') && LockTable(s')
  {
  }

  lemma {:induction false} WorkerKeepsOwner(s: State, s': State, t: nat)
    requires SingleOwner(s) && t < |s.workers| && WorkerShape(s, s', t)
    ensures SingleOwner(s')
  {
  }

  lemma {:induction false} WorkerKeepsGate(s: State, s': State, t: nat)
    requires Gate(s) && Swept(s) && t < |s.workers| && WorkerShape(s, s', t)
    ensures Gate(s') && Swept(s')
  {
  }

  lemma {:induction false} WorkerKeepsCount(s: State, s': State, t: nat)
    requires s.wg == Owed(s.workers) && t < |s.workers| && WorkerShape(s, s', t)
    ensures s'.wg == Owed(s'.workers)
  {
    var n, moved := |s.workers|, s.workers[t := s'.workers[t]];
    OwedUpdate(s.workers, t, s'.workers[t]);
    if |s'.workers| > n {
      OwedAppend(moved, s'.workers[n]);
      assert s'.workers == moved + [s'.workers[n]];
    } else {
      assert s'.workers == moved;
    }
  }

  lemma {:induction false} WorkerKeepsOthersOver(s: State, s': State, t: nat)
    requires WellFormed(s) && SingleOwner(s) && OthersOver(s)
    requires t < |s.workers| && WorkerShape(s, s', t) && ConnShape(s, s', t)
    ensures OthersOver(s')
  {
  }

  lemma {:induction false} WorkerKeepsOwnRightly(s: State, s': State, t: nat)
    requires WellFormed(s) && WellFormed(s') && SingleOwner(s) && AllOwnRightly(s)
    requires t < |s.workers| && WorkerShape(s, s', t) && ConnShape(s, s', t)
    ensures AllOwnRightly(s')
  {
  }

  lemma {:induction false} WorkerKeepsReachable(s: State, s': State, t: nat)
    requires WellFormed(s) && AllOwnRightly(s) && OthersOver(s) && LiveReachable(s)
    requires t < |s.workers| && WorkerShape(s, s', t) && ConnShape(s, s', t)
    ensures LiveReachable(s')
  {
    forall k | 0 <= k < |s'.conns| && s'.conns[k].Live() && s'.conn != Some(k)
      ensures HeldPrivately(s', k)
    {
      if s.workers[t].Owned() == Some(k) || k == |s.conns| {
        assert Private(s'.workers[t], k) || HeldPrivately(s, k);
      } else {
        assert HeldPrivately(s, k);
      }
    }
  }

  lemma {:induction false} WorkerKeepsSafe(s: State, s': State, t: nat)
    requires Safe(s) && t < |s.workers| && WorkerStep(s, s', t)
    ensures Safe(s')
  {
    WorkerStepShape(s, s', t);
    WorkerKeepsFrame(s, s', t);
    WorkerKeepsOwner(s, s', t);
    WorkerKeepsGate(s, s', t);
    WorkerKeepsCount(s, s', t);
    WorkerKeepsOwnRightly(s, s', t);
    WorkerKeepsOthersOver(s, s', t);
    WorkerKeepsReachable(s, s', t);
  }

  /** A change to connection k only, which does not bring it back to life. */
  ghost predicate ConnOnly(s: State, s': State, k: nat)
    requires k < |s.conns|
  {
    && k < |s'.conns| && s' == SetConn(s, k, s'.conns[k])
    && (s'.conns[k].Live() ==> s.conns[k].Live())
    && (s'.conns[k].reader.Unborn? <==> s.conns[k].reader.Unborn?)
    && s'.conns[k].dialFailed == s.conns[k].dialFailed
  }

  lemma {:induction false} ReaderStepShape(s: State, s': State, k: nat)
    requires k < |s.conns| && ReaderStep(s, s', k)
    ensures ConnOnly(s, s', k)
  {
  }

  lemma {:induction false} ConnOnlyKeepsConns(s: State, s': State, k: nat)
    requires WellFormed(s) && AllOwnRightly(s) && OthersOver(s) && k < |s.conns| && ConnOnly(s, s', k)
    ensures WellFormed(s') && AllOwnRightly(s') && OthersOver(s')
  {
  }

  lemma {:induction false} ConnOnlyKeepsReachable(s: State, s': State, k: nat)
    requires LiveReachable(s) && k < |s.conns| && ConnOnly(s, s', k)
    ensures LiveReachable(s')
  {
    forall j | 0 <= j < |s'.conns| && s'.conns[j].Live() && s'.conn != Some(j)
      ensures HeldPrivately(s', j)
    {
      assert HeldPrivately(s, j);
    }
  }

  lemma {:induction false} ConnOnlyKeepsSafe(s: State, s': State, k: nat)
    requires Safe(s) && k < |s.conns| && ConnOnly(s, s', k)
    ensures Safe(s')
  {
    ConnOnlyKeepsConns(s, s', k);
    ConnOnlyKeepsReachable(s, s', k);
    assert LockTable(s') && SingleOwner(s') && Gate(s') && Swept(s');
  }

  lemma {:induction false} CloserKeepsLocks(s: State, s': State, d: nat)
    requires WellFormed(s) && LockTable(s) && d < |s.closers| && CloserStep(s, s', d)
    ensures WellFormed(s') && LockTable(s')
  {
  }

  lemma {:induction false} CloserKeepsGate(s: State, s': State, d: nat)
    requires WellFormed(s) && LockTable(s) && Gate(s) && Swept(s) && d < |s.closers| && CloserStep(s, s', d)
    ensures Gate(s') && Swept(s')
  {
  }

  lemma {:induction false} CloserKeepsConns(s: State, s': State, d: nat)
    requires WellFormed(s) && AllOwnRightly(s) && OthersOver(s) && d < |s.closers| && CloserStep(s, s', d)
    ensures s'.workers == s.workers && s'.wg == s.wg && WellFormed(s') && AllOwnRightly(s') && OthersOver(s')
  {
  }

  lemma {:induction false} CloserKeepsReachable(s: State, s': State, d: nat)
    requires WellFormed(s) && LiveReachable(s) && d < |s.closers| && CloserStep(s, s', d)
    ensures LiveReachable(s')
  {
    forall k | 0 <= k < |s'.conns| && s'.conns[k].Live() && s'.conn != Some(k)
      ensures HeldPrivately(s', k)
    {
      assert HeldPrivately(s, k);
    }
  }

  lemma {:induction false} CloserKeepsSafe(s: State, s': State, d: nat)
    requires Safe(s) && d < |s.closers| && CloserStep(s, s', d)
    ensures Safe(s')
  {
    CloserKeepsLocks(s, s', d);
    CloserKeepsGate(s, s', d);
    CloserKeepsConns(s, s', d);
    CloserKeepsReachable(s, s', d);
  }

  lemma {:induction false} OutsideKeepsReachable(s: State, s': State)
    requires WellFormed(s) && OthersOver(s) && AllOwnRightly(s) && LiveReachable(s) && OutsideStep(s, s')
    ensures WellFormed(s') && OthersOver(s') && AllOwnRightly(s') && LiveReachable(s')
  {
    forall k | 0 <= k < |s'.conns| && s'.conns[k].Live() && s'.conn != Some(k)
      ensures HeldPrivately(s', k)
    {
      assert HeldPrivately(s, k);
    }
  }

  lemma {:induction false} OutsideKeepsSafe(s: State, s': State)
    requires Safe(s) && OutsideStep(s, s')
    ensures Safe(s')
  {
    OutsideKeepsReachable(s, s');
    assert LockTable(s') && SingleOwner(s') && Gate(s') && Swept(s');
  }

  lemma {:induction false} NextKeepsSafe(s: State, s': State)
    requires Safe(s) && Next(s, s')
    ensures Safe(s')
  {
    if t :| 0 <= t < |s.workers| && WorkerStep(s, s', t) {
      WorkerKeepsSafe(s, s', t);
    } else if k :| 0 <= k < |s.conns| && ReaderStep(s, s', k) {
      ReaderStepShape(s, s', k);
      ConnOnlyKeepsSafe(s, s', k);
    } else if d :| 0 <= d < |s.closers| && CloserStep(s, s', d) {
      CloserKeepsSafe(s, s', d);
    } else {
      OutsideKeepsSafe(s, s');
    }
  }

  lemma {:induction false} InitSafe(s: State)
    requires Init(s)
    ensures Safe(s)
  {
    assert Owed(s.workers) == 0;
  }

  /** The invariant holds in every state of every run. */
  lemma {:induction false} AlwaysSafe(tr: seq<State>, i: nat)
    requires Run(tr) && i < |tr|
    ensures Safe(tr[i])
  {
    if i == 0 {
      InitSafe(tr[0]);
    } else {
      AlwaysSafe(tr, i - 1);
      assert StepAt(tr, i - 1);
      NextKeepsSafe(tr[i - 1], tr[i]);
    }
  }

  // ---------- Theorems about whole runs ----------

  /** At most one worker is inside Connect, waiting to reconnect, or draining a stream. */
  lemma OneConnectOwner(tr: seq<State>, i: nat, t: nat, u: nat)
    requires Run(tr) && i < |tr| && t < u < |tr[i].workers|
    ensures !(tr[i].workers[t].InConnect() && tr[i].workers[u].InConnect())
    ensures !(tr[i].workers[t].Owned().Some? && tr[i].workers[u].Owned().Some?)
  {
    AlwaysSafe(tr, i);
  }

  /** The handler goroutines that have been started and have not finished. */
  function Unfinished(workers: seq<Pc>): set<nat> {
    set t: nat | 0 < t < |workers| && !workers[t].Finished?
  }

  /** The threads between wg.Add and the go statement. */
  function Spawning(workers: seq<Pc>): set<nat> {
    set t: nat | t < |workers| && workers[t].Spawn?
  }

  lemma UnfinishedStep(workers: seq<Pc>, n: nat)
    requires |workers| == n + 1
    ensures n !in Unfinished(workers[..n])
    ensures Unfinished(workers) == if n > 0 && !workers[n].Finished? then Unfinished(workers[..n]) + {n} else Unfinished(workers[..n])
  {
    assert forall t: nat :: t < n ==> workers[..n][t] == workers[t];
  }

  lemma SpawningStep(workers: seq<Pc>, n: nat)
    requires |workers| == n + 1
    ensures n !in Spawning(workers[..n])
    ensures Spawning(workers) == if workers[n].Spawn? then Spawning(workers[..n]) + {n} else Spawning(workers[..n])
  {
    assert forall t: nat :: t < n ==> workers[..n][t] == workers[t];
  }

  lemma {:induction false} OwedCounts(workers: seq<Pc>)
    ensures Owed(workers) == |Unfinished(workers)| + |Spawning(workers)|
  {
    if workers != [] {
      var n := |workers| - 1;
      OwedCounts(workers[..n]);
      UnfinishedStep(workers, n);
      SpawningStep(workers, n);
    }
  }

  /** The WaitGroup counts exactly the spawned, unfinished handlers, plus the one a spawner
      is about to start. */
  lemma WaitGroupExact(tr: seq<State>, i: nat)
    requires Run(tr) && i < |tr|
    ensures tr[i].wg == |Unfinished(tr[i].workers)| + |Spawning(tr[i].workers)|
    ensures |Spawning(tr[i].workers)| <= 1
  {
    AlwaysSafe(tr, i);
    var workers := tr[i].workers;
    OwedCounts(workers);
    if t: nat :| t in Spawning(workers) {
      forall u: nat | u in Spawning(workers)
        ensures u == t
      {
        assert workers[u].Active() && workers[t].Active();
      }
      assert Spawning(workers) == {t};
    }
  }

  lemma {:induction false} OwedAtLeast(workers: seq<Pc>, t: nat)
    requires t < |workers|
    ensures Owed(workers) >= Weight(t, workers[t])
  {
    if t < |workers| - 1 {
      OwedAtLeast(workers[..|workers| - 1], t);
    }
  }

  /** A zero WaitGroup means every handler goroutine has finished and none is being spawned. */
  lemma ZeroMeansFinished(s: State)
    requires s.wg == Owed(s.workers)
    ensures s.wg >= 0
    ensures s.wg == 0 ==> forall t :: 0 <= t < |s.workers| ==> !s.workers[t].Spawn? && (t > 0 ==> s.workers[t].Finished?)
  {
    forall t | 0 <= t < |s.workers| && Owed(s.workers) == 0
      ensures !s.workers[t].Spawn? && (t > 0 ==> s.workers[t].Finished?)
    {
      OwedAtLeast(s.workers, t);
    }
  }

  lemma {:induction false} NoAddAfterDone(s: State, s': State)
    requires Safe(s) && Next(s, s') && s.done
    ensures s'.done && s'.wg <= s.wg
  {
    if t :| 0 <= t < |s.workers| && WorkerStep(s, s', t) {
      WorkerStepShape(s, s', t);
    } else if k :| 0 <= k < |s.conns| && ReaderStep(s, s', k) {
      ReaderStepShape(s, s', k);
    } else if d :| 0 <= d < |s.closers| && CloserStep(s, s', d) {
      CloserKeepsConns(s, s', d);
      CloserKeepsGate(s, s', d);
    }
  }

  lemma NoAddAfterDoneAt(tr: seq<State>, i: nat)
    requires Run(tr) && i + 1 < |tr|
    ensures tr[i].done ==> tr[i + 1].done && tr[i + 1].wg <= tr[i].wg
  {
    AlwaysSafe(tr, i);
    assert StepAt(tr, i);
    if tr[i].done {
      NoAddAfterDone(tr[i], tr[i + 1]);
    }
  }

  /** WaitGroup.Wait is sound: once `done` is closed the count never grows again, so a zero
      that Wait sees stays zero and no handler ever runs after it. */
  lemma {:induction false} ZeroStaysZero(tr: seq<State>, i: nat, j: nat)
    requires Run(tr) && i <= j < |tr| && tr[i].done && tr[i].wg == 0
    ensures tr[j].done && tr[j].wg == 0
    ensures forall t :: 0 < t < |tr[j].workers| ==> tr[j].workers[t].Finished?
    decreases j
  {
    AlwaysSafe(tr, j);
    ZeroMeansFinished(tr[j]);
    if i < j {
      ZeroStaysZero(tr, i, j - 1);
      NoAddAfterDoneAt(tr, j - 1);
    }
  }

  /** `done` is never closed twice, which would panic. */
  lemma DoneClosedOnce(tr: seq<State>, i: nat, d: nat)
    requires Run(tr) && i < |tr| && d < |tr[i].closers| && tr[i].closers[d].CloseDone?
    ensures !tr[i].done
  {
    AlwaysSafe(tr, i);
  }

  /** Once a Disconnect has returned and no thread is inside Connect, every connection ever
      created failed to open, was ended (body and channel closed), or was cancelled. */
  lemma NoLeakedStream(tr: seq<State>, i: nat, k: nat)
    requires Run(tr) && i < |tr| && k < |tr[i].conns|
    requires SomeoneReturned(tr[i])
    requires forall t :: 0 <= t < |tr[i].workers| ==> !tr[i].workers[t].InConnect()
    ensures tr[i].conns[k].dialFailed || tr[i].conns[k].cancelled || tr[i].conns[k].reader.Gone?
  {
    AlwaysSafe(tr, i);
    assert tr[i].conns[k].Live() ==> HeldPrivately(tr[i], k);
  }

  /** The state after the step that the holder of a lock takes next. */
  function HolderStep(s: State, h: Holder): State
    requires WellFormed(s) && HolderExists(s, Some(h))
  {
    match h
    case Worker(t) => (
      match s.workers[t]
      case CheckConn(k) => Go(s, t, if s.done then RefuseConn(k) else Publish(k))
      case Publish(k) => Go(s.(conn := Some(k), connMu := None), t, Dial(k))
      case RefuseConn(k) => Go(s.(connMu := None), t, CloseConn(k))
      case ClearConn(k) => Go(s.(connMu := None, conn := if s.conn == Some(k) then None else s.conn), t, Failed)
      case CheckSpawn(k) => Go(s, t, if s.done then RefuseSpawn(k) else Add(k))
      case Add(k) => Go(s.(wg := s.wg + 1, spawnMu := None), t, Spawn(k))
      case RefuseSpawn(k) => Go(s.(spawnMu := None), t, CloseConn(k))
      case _ => s)
    case Closer(d) =>
      match s.closers[d]
      case CloseDone => s.(done := true, closers := s.closers[d := LeaveSpawn])
      case LeaveSpawn => s.(spawnMu := None, once := Completed, closers := s.closers[d := NeedConn])
      case Sweep =>
        var s1 := if s.conn.Some? then Cancel(s, s.conn.value) else s;
        s1.(conn := None, connMu := None, closers := s1.closers[d := Returned])
      case _ => s
  }

  predicate Held(s: State, h: Holder) {
    s.connMu == Some(h) || s.spawnMu == Some(h)
  }

  ghost predicate ReleasedSoon(s: State, h: Holder) {
    Held(s, h) ==> WellFormed(s) && HolderExists(s, Some(h)) && !Held(HolderStep(s, h), h)
  }

  lemma {:induction false} WorkerHolderSteps(s: State, t: nat)
    requires WellFormed(s) && t < |s.workers| && Holds(s.workers[t]) != NoLock
    ensures WorkerStep(s, HolderStep(s, Worker(t)), t)
  {
    var s' := HolderStep(s, Worker(t));
    match s.workers[t]
    case CheckConn(_) => assert PublishStep(s, s', t);
    case Publish(_) => assert PublishStep(s, s', t);
    case ClearConn(_) => assert ClearStep(s, s', t);
    case CheckSpawn(_) => assert AddStep(s, s', t);
    case Add(_) => assert SpawnStep(s, s', t);
    case RefuseConn(_) => assert RefuseStep(s, s', t);
    case RefuseSpawn(_) => assert RefuseStep(s, s', t);
    case _ =>
  }

  lemma {:induction false} WorkerHolderReleases(s: State, t: nat)
    requires WellFormed(s) && LockTable(s) && t < |s.workers| && Holds(s.workers[t]) != NoLock
    ensures ReleasedSoon(HolderStep(s, Worker(t)), Worker(t))
  {
  }

  /** No lock is held across a blocking operation: a worker that holds one can step at once
      and holds none after at most two of its own steps. */
  lemma {:induction false} WorkerReleasesLocks(s: State, t: nat)
    requires WellFormed(s) && LockTable(s) && t < |s.workers| && Held(s, Worker(t))
    ensures WorkerStep(s, HolderStep(s, Worker(t)), t) && ReleasedSoon(HolderStep(s, Worker(t)), Worker(t))
  {
    WorkerHolderSteps(s, t);
    WorkerHolderReleases(s, t);
  }

  /** The same for a Disconnect call. */
  lemma {:induction false} CloserReleasesLocks(s: State, d: nat)
    requires WellFormed(s) && LockTable(s) && d < |s.closers| && Held(s, Closer(d))
    ensures CloserStep(s, HolderStep(s, Closer(d)), d) && ReleasedSoon(HolderStep(s, Closer(d)), Closer(d))
  {
  }
}
