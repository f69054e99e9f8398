/**
 Whole histories of the tus store: handed-out bytes never change under any sequence of
 operations, and when a resumed upload stores what one uninterrupted handle would have.
 */
module TusHistory {
  import opened Prelude
  import opened TusStore

  // ---------- Any sequence of store operations ----------

  /** Operations name a handle by its place among all handles ever obtained; a handle stays in
      use across every other operation, and several may be open on one upload. */
  datatype Op =
    | New(info: FileInfo, generated: string)   // yields a handle
    | Get(id: string)                          // yields a handle
    | Write(h: nat, src: Source)
    | Concat(h: nat, parts: seq<nat>)
    | Declare(h: nat, length: int)
    | Finish(h: nat)
    | Kill(h: nat)
    | Read(h: nat)                             // hands out a slice
    | Hand(id: string)                         // hands out a slice
    | Assemble(ids: seq<string>)               // hands out one slice per upload

  datatype Handle = Handle(info: FileInfo, complete: bool)

  /** The store as values: no arrays, no sharing.  `read` holds what every slice handed out so
      far contained at that time. */
  datatype State = State(contents: map<string, Bytes>, metadata: map<string, FileInfo>, handles: seq<Handle>,
                         read: seq<Bytes>)

  const EMPTY := State(map[], map[], [], [])

  predicate Opened(s: State, parts: seq<nat>) {
    forall i :: 0 <= i < |parts| ==> parts[i] < |s.handles|
  }

  function PartIds(s: State, parts: seq<nat>): seq<string>
    requires Opened(s, parts)
  {
    seq(|parts|, i requires 0 <= i < |parts| => s.handles[parts[i]].info.id)
  }

  function Stored(view: map<string, Bytes>, ids: seq<string>): (r: seq<Bytes>)
    requires AllStored(view, ids)
  {
    seq(|ids|, i requires 0 <= i < |ids| => view[ids[i]])
  }

  function ChosenId(info: FileInfo, generated: string): string {
    if info.id == "" then generated else info.id
  }

  function DoWrite(s: State, h: nat, src: Source): State
    requires h < |s.handles|
  {
    var Handle(info, complete) := s.handles[h];
    if complete || src.Broken? || info.id !in s.contents then s
    else s.(contents := Appended(s.contents, info.id, src.bytes),
            handles := s.handles[h := Handle(info.(offset := info.offset + |src.bytes|), complete)])
  }

  function DoConcat(s: State, h: nat, parts: seq<nat>): State
    requires h < |s.handles| && Opened(s, parts)
  {
    if !AllStored(s.contents, PartIds(s, parts)) then s
    else
      var Handle(info, complete) := s.handles[h];
      var contents := Appended(s.contents, info.id, Joined(s.contents, PartIds(s, parts)));
      var length := |contents[info.id]|;
      s.(contents := contents,
         handles := s.handles[h := Handle(info.(offset := length), complete || length == info.size)])
  }

  /** What one operation means.  One on a handle that does not exist means nothing. */
  function Do(s: State, op: Op): State {
    match op
    case New(info, generated) =>
      var filed := info.(id := ChosenId(info, generated));
      s.(contents := s.contents[filed.id := []], metadata := s.metadata[filed.id := filed],
         handles := s.handles + [Handle(filed, false)])
    case Get(id) =>
      if id in s.metadata && id in s.contents then
        var length := |s.contents[id]|;
        s.(handles := s.handles + [Handle(s.metadata[id].(offset := length), length == s.metadata[id].size)])
      else s
    case Write(h, src) => if h < |s.handles| then DoWrite(s, h, src) else s
    case Concat(h, parts) => if h < |s.handles| && Opened(s, parts) then DoConcat(s, h, parts) else s
    case Declare(h, length) =>
      if h < |s.handles| then
        var f := s.handles[h];
        var info := f.info.(size := length, sizeDeferred := false);
        s.(metadata := s.metadata[info.id := info], handles := s.handles[h := f.(info := info)])
      else s
    case Finish(h) =>
      if h < |s.handles| then
        s.(handles := s.handles[h := Handle(s.handles[h].info.(offset := s.handles[h].info.size), true)])
      else s
    case Kill(h) =>
      if h < |s.handles| then
        var id := s.handles[h].info.id;
        s.(contents := s.contents - {id}, metadata := s.metadata - {id})
      else s
    case Read(h) =>
      if h < |s.handles| && s.handles[h].info.id in s.contents then
        s.(read := s.read + [s.contents[s.handles[h].info.id]])
      else s
    case Hand(id) => if id in s.contents then s.(read := s.read + [s.contents[id]]) else s
    case Assemble(ids) => if AllStored(s.contents, ids) then s.(read := s.read + Stored(s.contents, ids)) else s
  }

  function DoAll(s: State, ops: seq<Op>): State {
    if ops == [] then s else Do(DoAll(s, ops[..|ops| - 1]), ops[|ops| - 1])
  }

  /** The handles in use, all different objects, are what s says. */
  ghost predicate Pooled(store: MemoryStore, pool: seq<MemoryFile>, s: State)
    reads pool
  {
    && |pool| == |s.handles|
    && (forall i :: 0 <= i < |pool| ==> pool[i].store == store && Handle(pool[i].info, pool[i].isComplete) == s.handles[i])
    && (forall i, j :: 0 <= i < j < |pool| ==> pool[i] != pool[j])
  }

  /** The slices handed out held what s says when they were handed out. */
  ghost predicate Reading(store: MemoryStore, readers: seq<Slice>, s: State)
    reads store`handed
  {
    |readers| == |s.read| && forall i :: 0 <= i < |readers| ==> Snapshot(readers[i], s.read[i]) in store.handed
  }

  ghost predicate Means(store: MemoryStore, pool: seq<MemoryFile>, readers: seq<Slice>, s: State)
    reads store, store.arrays, pool
  {
    && store.Valid() && store.contents == s.contents && store.metadata == s.metadata
    && Pooled(store, pool, s) && Reading(store, readers, s)
  }

  method ServeNew(store: MemoryStore, pool: seq<MemoryFile>, ghost readers: seq<Slice>, info: FileInfo,
                  generated: string, ghost s: State)
      returns (pool': seq<MemoryFile>)
    requires Means(store, pool, readers, s)
    modifies store`data, store`contents, store`metadata, store`arrays
    ensures Means(store, pool', readers, Do(s, New(info, generated))) && fresh(store.arrays - old(store.arrays))
    ensures pool <= pool' && forall i :: |pool| <= i < |pool'| ==> fresh(pool'[i])
  {
    var f := store.NewUpload(info, generated);
    pool' := pool + [f];
  }

  method ServeGet(store: MemoryStore, pool: seq<MemoryFile>, ghost readers: seq<Slice>, id: string, ghost s: State)
      returns (pool': seq<MemoryFile>)
    requires Means(store, pool, readers, s)
    ensures Means(store, pool', readers, Do(s, Get(id)))
    ensures pool <= pool' && forall i :: |pool| <= i < |pool'| ==> fresh(pool'[i])
  {
    var r := store.GetUpload(id);
    pool' := if r.Ok? then pool + [r.value] else pool;
  }

  method ServeWrite(store: MemoryStore, f: MemoryFile, ghost pool: seq<MemoryFile>, ghost readers: seq<Slice>,
                    h: nat, src: Source, ghost s: State)
    requires h < |pool| && f == pool[h] && Means(store, pool, readers, s)
    modifies f`info, store`data, store`contents, store`arrays, store.arrays
    ensures Means(store, pool, readers, DoWrite(s, h, src)) && fresh(store.arrays - old(store.arrays))
  {
    assert s.handles[h] == Handle(f.info, f.isComplete);
    var r := f.WriteChunk(src);
    assert r.Err? ==> f.info == s.handles[h].info && DoWrite(s, h, src) == s;
    forall i | 0 <= i < |pool|
      ensures Handle(pool[i].info, pool[i].isComplete) == DoWrite(s, h, src).handles[i]
    {
      if i != h {
        assert pool[i] != f && pool[i].info == old(pool[i].info);
      }
    }
  }

  method ServeConcat(store: MemoryStore, f: MemoryFile, pool: seq<MemoryFile>, ghost readers: seq<Slice>,
                     h: nat, parts: seq<nat>, ghost s: State)
    requires h < |pool| && f == pool[h] && Means(store, pool, readers, s) && Opened(s, parts)
    modifies f`info, f`isComplete, store`data, store`contents, store`arrays, store.arrays
    ensures Means(store, pool, readers, DoConcat(s, h, parts)) && fresh(store.arrays - old(store.arrays))
  {
    var uploads := seq(|parts|, i requires 0 <= i < |parts| && parts[i] < |pool| => pool[parts[i]]);
    assert IdsOf(uploads) == PartIds(s, parts);
    var _ := f.ConcatUploads(uploads);
  }

  method ServeDeclare(store: MemoryStore, f: MemoryFile, ghost pool: seq<MemoryFile>,
                      ghost readers: seq<Slice>, h: nat, length: int, ghost s: State)
    requires h < |pool| && f == pool[h] && Means(store, pool, readers, s)
    modifies f`info, store`metadata
    ensures Means(store, pool, readers, Do(s, Declare(h, length)))
  {
    f.DeclareLength(length);
  }

  method ServeFinish(store: MemoryStore, f: MemoryFile, ghost pool: seq<MemoryFile>, ghost readers: seq<Slice>,
                     h: nat, ghost s: State)
    requires h < |pool| && f == pool[h] && Means(store, pool, readers, s)
    modifies f
    ensures Means(store, pool, readers, Do(s, Finish(h)))
  {
    f.FinishUpload();
  }

  method ServeKill(store: MemoryStore, f: MemoryFile, ghost pool: seq<MemoryFile>, ghost readers: seq<Slice>,
                   h: nat, ghost s: State)
    requires h < |pool| && f == pool[h] && Means(store, pool, readers, s)
    modifies store`data, store`contents, store`metadata
    ensures Means(store, pool, readers, Do(s, Kill(h)))
  {
    f.Terminate();
  }

  method ServeRead(store: MemoryStore, f: MemoryFile, ghost pool: seq<MemoryFile>, readers: seq<Slice>, h: nat,
                   ghost s: State)
      returns (readers': seq<Slice>)
    requires h < |pool| && f == pool[h] && Means(store, pool, readers, s)
    modifies store`handed
    ensures Means(store, pool, readers', Do(s, Read(h))) && readers <= readers' && old(store.handed) <= store.handed
  {
    var r := f.GetReader();
    if r.Err? {
      return readers;
    }
    readers' := readers + [r.value];
  }

  method ServeHand(store: MemoryStore, ghost pool: seq<MemoryFile>, readers: seq<Slice>, id: string, ghost s: State)
      returns (readers': seq<Slice>)
    requires Means(store, pool, readers, s)
    modifies store`handed
    ensures Means(store, pool, readers', Do(s, Hand(id))) && readers <= readers' && old(store.handed) <= store.handed
  {
    var r := store.HandOut(id);
    if r.Err? {
      return readers;
    }
    readers' := readers + [r.value];
  }

  method ServeAssemble(store: MemoryStore, ghost pool: seq<MemoryFile>, readers: seq<Slice>, ids: seq<string>,
                       ghost s: State)
      returns (readers': seq<Slice>)
    requires Means(store, pool, readers, s)
    modifies store`handed
    ensures Means(store, pool, readers', Do(s, Assemble(ids))) && readers <= readers' && old(store.handed) <= store.handed
  {
    var r := store.AssembleUploads(ids);
    if r.Err? {
      return readers;
    }
    readers' := readers + r.value;
    forall i | 0 <= i < |readers'|
      ensures Snapshot(readers'[i], (s.read + Stored(s.contents, ids))[i]) in store.handed
    {
      if i >= |readers| {
        assert readers'[i] == r.value[i - |readers|];
      }
    }
  }

  method Serve(store: MemoryStore, pool: seq<MemoryFile>, readers: seq<Slice>, op: Op, ghost s: State)
      returns (pool': seq<MemoryFile>, readers': seq<Slice>)
    requires Means(store, pool, readers, s)
    modifies store, store.arrays, pool
    ensures Means(store, pool', readers', Do(s, op)) && readers <= readers' && old(store.handed) <= store.handed
    ensures fresh(store.arrays - old(store.arrays))
    ensures pool <= pool' && forall i :: |pool| <= i < |pool'| ==> fresh(pool'[i])
  {
    pool', readers' := pool, readers;
    match op
    case New(info, generated) => pool' := ServeNew(store, pool, readers, info, generated, s);
    case Get(id) => pool' := ServeGet(store, pool, readers, id, s);
    case Write(h, src) => if h < |pool| { ServeWrite(store, pool[h], pool, readers, h, src, s); }
    case Concat(h, parts) =>
      if h < |pool| && forall i :: 0 <= i < |parts| ==> parts[i] < |pool| {
        ServeConcat(store, pool[h], pool, readers, h, parts, s);
      }
    case Declare(h, length) => if h < |pool| { ServeDeclare(store, pool[h], pool, readers, h, length, s); }
    case Finish(h) => if h < |pool| { ServeFinish(store, pool[h], pool, readers, h, s); }
    case Kill(h) => if h < |pool| { ServeKill(store, pool[h], pool, readers, h, s); }
    case Read(h) => if h < |pool| { readers' := ServeRead(store, pool[h], pool, readers, h, s); }
    case Hand(id) => readers' := ServeHand(store, pool, readers, id, s);
    case Assemble(ids) => readers' := ServeAssemble(store, pool, readers, ids, s);
  }

  /**
   Any history over retained handles: stored bytes, infos and handles are the sequential
   meaning of the operations, and every slice ever handed out, before or during the history,
   still holds the bytes it had when it was handed out.
   */
  method ServeAll(store: MemoryStore, pool0: seq<MemoryFile>, readers0: seq<Slice>, ops: seq<Op>, ghost s: State)
      returns (pool: seq<MemoryFile>, readers: seq<Slice>)
    requires Means(store, pool0, readers0, s)
    modifies store, store.arrays, pool0
    ensures Means(store, pool, readers, DoAll(s, ops)) && readers0 <= readers
    ensures forall i :: 0 <= i < |readers| ==> Fits(readers[i]) && Content(readers[i]) == DoAll(s, ops).read[i]
    ensures forall i :: 0 <= i < |readers0| ==> Content(readers0[i]) == old(Content(readers0[i]))
    ensures forall n :: n in old(store.handed) ==> n in store.handed && Content(n.slice) == old(Content(n.slice))
  {
    pool, readers := pool0, readers0;
    ghost var before := store.handed;
    for i := 0 to |ops|
      invariant Means(store, pool, readers, DoAll(s, ops[..i])) && readers0 <= readers && before <= store.handed
      invariant fresh(store.arrays - old(store.arrays))
      invariant pool0 <= pool && forall j :: |pool0| <= j < |pool| ==> fresh(pool[j])
    {
      pool, readers := Serve(store, pool, readers, ops[i], DoAll(s, ops[..i]));
      assert ops[..i + 1][..i] == ops[..i];
    }
    assert ops[..|ops|] == ops;
    ReadKept(s, ops);
    forall n | n in before
      ensures n in store.handed && Content(n.slice) == n.bytes
    {
    }
  }

  /** Every history from an empty store. */
  method Run(ops: seq<Op>) returns (store: MemoryStore, pool: seq<MemoryFile>, readers: seq<Slice>)
    ensures Means(store, pool, readers, DoAll(EMPTY, ops))
    ensures forall i :: 0 <= i < |readers| ==> Fits(readers[i]) && Content(readers[i]) == DoAll(EMPTY, ops).read[i]
  {
    store := new MemoryStore();
    pool, readers := ServeAll(store, [], [], ops, EMPTY);
  }

  lemma {:induction false} ReadKept(s: State, ops: seq<Op>)
    ensures s.read <= DoAll(s, ops).read
  {
    if ops != [] {
      ReadKept(s, ops[..|ops| - 1]);
    }
  }

  /** op ends upload id: it makes a new upload of that name, or terminates it. */
  predicate Ends(s: State, op: Op, id: string) {
    || (op.New? && ChosenId(op.info, op.generated) == id)
    || (op.Kill? && op.h < |s.handles| && s.handles[op.h].info.id == id)
  }

  lemma AppendOnlyStep(s: State, op: Op, id: string)
    requires id in s.contents && !Ends(s, op, id)
    ensures id in Do(s, op).contents && s.contents[id] <= Do(s, op).contents[id]
  {
  }

  /** Between its creation and its end, the bytes of an upload are only ever added to at the
      end, whichever handles, stale ones included, are used on this and other uploads. */
  lemma {:induction false} AppendOnly(s: State, ops: seq<Op>, id: string)
    requires id in s.contents
    requires forall i :: 0 <= i < |ops| ==> !Ends(DoAll(s, ops[..i]), ops[i], id)
    ensures id in DoAll(s, ops).contents && s.contents[id] <= DoAll(s, ops).contents[id]
  {
    if ops != [] {
      var front := ops[..|ops| - 1];
      forall i | 0 <= i < |front|
        ensures !Ends(DoAll(s, front[..i]), front[i], id)
      {
        assert front[..i] == ops[..i];
      }
      AppendOnly(s, front, id);
      AppendOnlyStep(DoAll(s, front), ops[|front|], id);
    }
  }

  /** A write request served through a freshly fetched handle is refused exactly when there is
      no such upload, its source fails, or the stored bytes already have the declared size. */
  lemma FetchedWrite(s: State, id: string, src: Source)
    requires id in s.metadata && s.metadata[id].id == id
    ensures DoAll(s, [Get(id), Write(|s.handles|, src)]).contents
            == if id in s.contents && src.Readable? && |s.contents[id]| != s.metadata[id].size
               then Appended(s.contents, id, src.bytes) else s.contents
  {
    var ops := [Get(id), Write(|s.handles|, src)];
    assert ops[..1] == [Get(id)] && ops[..1][..0] == [];
    assert DoAll(s, ops[..1]) == Do(s, Get(id));
  }

  /** Metadata is filed under the id it names. */
  ghost predicate Filed(metadata: map<string, FileInfo>) {
    forall id :: id in metadata ==> metadata[id].id == id
  }

  lemma {:induction false} StaysFiled(s: State, ops: seq<Op>)
    requires Filed(s.metadata)
    ensures Filed(DoAll(s, ops).metadata)
  {
    if ops != [] {
      StaysFiled(s, ops[..|ops| - 1]);
    }
  }

  // ---------- Resuming one upload ----------

  /** A client either writes a chunk, or loses its handle and fetches a new one. */
  datatype Move = Chunk(bytes: Bytes) | Refetch

  /** Stored bytes and the handle's isComplete after one move. */
  function Advance(size: int, bytes: Bytes, closed: bool, move: Move): (Bytes, bool) {
    match move
    case Chunk(b) => (if closed then bytes else bytes + b, closed)
    case Refetch => (bytes, |bytes| == size)
  }

  function Session(size: int, bytes: Bytes, closed: bool, moves: seq<Move>): (Bytes, bool)
    decreases |moves|
  {
    if moves == [] then (bytes, closed)
    else
      var (b, c) := Advance(size, bytes, closed, moves[0]);
      Session(size, b, c, moves[1..])
  }

  /** What one handle that never is refetched writes. */
  function Written(moves: seq<Move>): Bytes {
    if moves == [] then []
    else (if moves[0].Chunk? then moves[0].bytes else []) + Written(moves[1..])
  }

  /** Some handle was fetched when exactly the declared size was stored, and bytes followed. */
  ghost predicate WritesAfterComplete(size: int, stored: nat, moves: seq<Move>) {
    exists i, j :: 0 <= i < j < |moves| && CompleteAt(size, stored, moves, i) && Sends(moves[j])
  }

  predicate CompleteAt(size: int, stored: nat, moves: seq<Move>, i: nat)
    requires i < |moves|
  {
    moves[i].Refetch? && stored + |Written(moves[..i])| == size
  }

  predicate Sends(m: Move) { m.Chunk? && m.bytes != [] }

  ghost predicate SomeBytes(moves: seq<Move>) {
    exists j :: 0 <= j < |moves| && Sends(moves[j])
  }

  lemma {:induction false} WrittenEmpty(moves: seq<Move>)
    ensures Written(moves) == [] <==> !SomeBytes(moves)
  {
    if moves != [] {
      WrittenEmpty(moves[1..]);
      if SomeBytes(moves[1..]) {
        var j :| 0 <= j < |moves[1..]| && Sends(moves[1..][j]);
        assert Sends(moves[j + 1]);
      }
      if SomeBytes(moves) && !Sends(moves[0]) {
        var j :| 0 <= j < |moves| && Sends(moves[j]);
        assert Sends(moves[1..][j - 1]);
      }
    }
  }

  lemma {:induction false} AfterCompleteStep(size: int, stored: nat, moves: seq<Move>)
    requires moves != []
    ensures var now := stored + |if moves[0].Chunk? then moves[0].bytes else []|;
            WritesAfterComplete(size, stored, moves) <==>
            || (moves[0].Refetch? && stored == size && SomeBytes(moves[1..]))
            || WritesAfterComplete(size, now, moves[1..])
  {
    var rest := moves[1..];
    var now := stored + |if moves[0].Chunk? then moves[0].bytes else []|;
    forall i | 0 < i < |moves|
      ensures CompleteAt(size, stored, moves, i) <==> CompleteAt(size, now, rest, i - 1)
    {
      assert moves[..i][0] == moves[0] && moves[..i][1..] == rest[..i - 1];
    }
    assert moves[..0] == [];
    if WritesAfterComplete(size, now, rest) {
      var i, j :| 0 <= i < j < |rest| && CompleteAt(size, now, rest, i) && Sends(rest[j]);
      assert CompleteAt(size, stored, moves, i + 1) && Sends(moves[j + 1]);
    }
    if moves[0].Refetch? && stored == size && SomeBytes(rest) {
      var j :| 0 <= j < |rest| && Sends(rest[j]);
      assert CompleteAt(size, stored, moves, 0) && Sends(moves[j + 1]);
    }
    if WritesAfterComplete(size, stored, moves) {
      var i, j :| 0 <= i < j < |moves| && CompleteAt(size, stored, moves, i) && Sends(moves[j]);
      assert Sends(rest[j - 1]);
      assert i > 0 ==> CompleteAt(size, now, rest, i - 1);
    }
  }

  lemma {:induction false} SessionClosed(size: int, bytes: Bytes, moves: seq<Move>)
    requires |bytes| == size
    ensures Session(size, bytes, true, moves) == (bytes, true)
    decreases |moves|
  {
    if moves != [] {
      SessionClosed(size, bytes, moves[1..]);
    }
  }

  /**
   Resuming refines writing in one go: the stored bytes equal those of a single handle that
   writes every chunk, if and only if no bytes are sent after a handle was fetched at the
   declared size.  (Such a handle is complete and refuses every chunk.)
   */
  lemma {:induction false} ResumeRefines(size: int, bytes: Bytes, moves: seq<Move>)
    ensures Session(size, bytes, false, moves).0 == bytes + Written(moves)
            <==> !WritesAfterComplete(size, |bytes|, moves)
    decreases |moves|
  {
    if moves == [] {
      assert bytes + [] == bytes;
    } else {
      var rest := moves[1..];
      AfterCompleteStep(size, |bytes|, moves);
      match moves[0]
      case Chunk(b) =>
        ResumeRefines(size, bytes + b, rest);
        assert bytes + b + Written(rest) == bytes + Written(moves);
      case Refetch =>
        assert Written(moves) == Written(rest);
        if |bytes| == size {
          SessionClosed(size, bytes, rest);
          WrittenEmpty(rest);
          ResumeRefines(size, bytes, rest);
        } else {
          ResumeRefines(size, bytes, rest);
        }
    }
  }

  /** The refinement fails on an upload of deferred length: its declared size reads 0, so a
      handle fetched before the first byte already counts as complete. */
  lemma DeferredUploadLosesBytes(b: bv8)
    ensures Session(0, [], false, [Refetch, Chunk([b])]).0 == []
    ensures Written([Refetch, Chunk([b])]) == [b]
  {
    var rest := [Chunk([b])];
    assert [Refetch, Chunk([b])][1..] == rest && rest[1..] == [];
    assert Session(0, [], true, rest) == Session(0, [], true, []);
    assert Written(rest) == [b] + Written([]);
  }

  /** Session, one move at a time from the front. */
  function SessionTo(size: int, bytes: Bytes, closed: bool, moves: seq<Move>, n: nat): (Bytes, bool)
    requires n <= |moves|
  {
    if n == 0 then (bytes, closed)
    else
      var (b, c) := SessionTo(size, bytes, closed, moves, n - 1);
      Advance(size, b, c, moves[n - 1])
  }

  lemma {:induction false} SessionToEnd(size: int, bytes: Bytes, closed: bool, moves: seq<Move>, n: nat)
    requires n <= |moves|
    ensures var (b, c) := SessionTo(size, bytes, closed, moves, n);
            Session(size, b, c, moves[n..]) == Session(size, bytes, closed, moves)
  {
    if n == 0 {
      assert moves[0..] == moves;
    } else {
      SessionToEnd(size, bytes, closed, moves, n - 1);
      assert moves[n - 1..][0] == moves[n - 1] && moves[n - 1..][1..] == moves[n..];
    }
  }

  /** A handle of upload id in step with the store: its offset is the stored length. */
  ghost predicate InStep(store: MemoryStore, id: string, f: MemoryFile)
    reads f, store`contents, store`metadata
  {
    && f.store == store && f.info.id == id && id in store.contents && id in store.metadata
    && f.info.offset == |store.contents[id]|
  }

  lemma AppendedMinus(m: map<string, Bytes>, id: string, b: Bytes)
    ensures Appended(m, id, b) - {id} == m - {id}
  {
  }

  method PlayMove(store: MemoryStore, ghost id: string, f0: MemoryFile, move: Move) returns (f: MemoryFile)
    requires store.Valid() && Filed(store.metadata) && InStep(store, id, f0)
    modifies f0`info, store`data, store`contents, store`arrays, store.arrays
    ensures store.Valid() && InStep(store, id, f) && (f == f0 || fresh(f))
    ensures fresh(store.arrays - old(store.arrays)) && old(store.arrays) <= store.arrays
    ensures (store.contents[id], f.isComplete)
            == Advance(store.metadata[id].size, old(store.contents[id]), old(f0.isComplete), move)
    ensures store.contents - {id} == old(store.contents) - {id}
  {
    f := f0;
    match move
    case Chunk(b) =>
      AppendedMinus(store.contents, id, b);
      var _ := f.WriteChunk(Readable(b));
    case Refetch =>
      var r := store.GetUpload(f.info.id);
      f := r.value;
  }

  /** The moves played against the store do what Session says, and the last handle is in
      step, so a chunk written at its offset lands at exactly that offset. */
  method PlaySession(store: MemoryStore, ghost id: string, f0: MemoryFile, moves: seq<Move>) returns (f: MemoryFile)
    requires store.Valid() && Filed(store.metadata) && InStep(store, id, f0)
    modifies f0`info, store`data, store`contents, store`arrays, store.arrays
    ensures store.Valid() && InStep(store, id, f)
    ensures (store.contents[id], f.isComplete)
            == Session(store.metadata[id].size, old(store.contents[id]), old(f0.isComplete), moves)
    ensures store.contents - {id} == old(store.contents) - {id}
  {
    f := f0;
    ghost var before, closed := store.contents, f0.isComplete;
    for i := 0 to |moves|
      invariant store.Valid() && InStep(store, id, f) && (f == f0 || fresh(f))
      invariant fresh(store.arrays - old(store.arrays))
      invariant store.contents - {id} == before - {id}
      invariant (store.contents[id], f.isComplete) == SessionTo(store.metadata[id].size, before[id], closed, moves, i)
    {
      f := PlayMove(store, id, f, moves[i]);
    }
    SessionToEnd(store.metadata[id].size, before[id], closed, moves, |moves|);
  }
}
