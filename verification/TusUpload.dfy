/**
 uploadViaTUS of upload.go, end to end: the client splits its reader into an initial chunk
 and a remainder, and the in-memory tus store is the server on the other side.

 The tus client library is represented by what the protocol's creation-with-upload and PATCH
 requests do to the server; the environment decides how much of each request arrives.
 */
module TusUpload {
  import opened Prelude
  import opened TusStore
  import opened TusHistory

  const INITIAL_CHUNK := 2 * 1024 * 1024

  /** An io.Reader: the bytes it still has, and whether it then fails instead of ending. */
  class Reader {
    var rest: Bytes
    const broken: bool

    constructor (data: Bytes, broken: bool)
      ensures rest == data && this.broken == broken
    {
      rest, this.broken := data, broken;
    }

    /** io.ReadFull. */
    method ReadFull(n: nat) returns (r: ReadOutcome)
      modifies this
      ensures if n <= |old(rest)| then r == Full(old(rest)[..n]) && rest == old(rest)[n..]
              else rest == [] && r == if broken then ReadError else Short(|old(rest)|)
    {
      if n <= |rest| {
        r := Full(rest[..n]);
        rest := rest[n..];
      } else {
        r := if broken then ReadError else Short(|rest|);
        rest := [];
      }
    }

    /** One Read, of a size the reader chooses. */
    method Read(choice: nat) returns (piece: Bytes)
      requires rest != []
      modifies this
      ensures piece != [] && piece + rest == old(rest)
    {
      var n := Max(1, Min(choice, |rest|));
      piece, rest := rest[..n], rest[n..];
    }
  }

  datatype ReadOutcome = Full(bytes: Bytes) | Short(n: nat) | ReadError

  /** Whether a request is accepted whole and answered; if not, how much of its body the
      server keeps, and whether the client still gets a good answer. */
  datatype Fate = Whole | Cut(accepted: nat, answered: bool)
  {
    function Taken(n: nat): nat { if Whole? then n else Min(accepted, n) }

    predicate Answered() { Whole? || answered }
  }

  datatype TusError = Incomplete | ReadFailed | CreateFailed | Interrupted

  datatype UploadOutcome = Done(location: string, size: int) | Error(error: TusError)

  /** CreateUploadWithData: POST with Upload-Length and a first chunk. */
  method CreateWithData(store: MemoryStore, id: string, chunk: Bytes, size: int, fate: Fate) returns (taken: nat)
    requires store.Valid() && Filed(store.metadata)
    modifies store`data, store`contents, store`metadata, store`arrays, store.arrays
    ensures store.Valid() && Filed(store.metadata) && fresh(store.arrays - old(store.arrays))
    ensures taken == fate.Taken(|chunk|)
    ensures id in store.metadata && store.metadata[id].size == size
    ensures id in store.contents && store.contents[id] == chunk[..taken]
    ensures store.contents - {id} == old(store.contents) - {id}
  {
    taken := fate.Taken(|chunk|);
    var f := store.NewUpload(FileInfo("", size, 0, false), id);
    MinusPut(old(store.contents), id, []);
    var _ := PlayMove(store, id, f, Chunk(chunk[..taken]));
  }

  lemma MinusPut(m: map<string, Bytes>, id: string, bytes: Bytes)
    ensures m[id := bytes] - {id} == m - {id}
  {
  }

  /** One PATCH at the current offset, through a freshly fetched handle. */
  method Patch(store: MemoryStore, id: string, piece: Bytes, fate: Fate) returns (ok: bool)
    requires store.Valid() && Filed(store.metadata) && id in store.contents && id in store.metadata
    modifies store`data, store`contents, store`arrays, store.arrays
    ensures store.Valid() && fresh(store.arrays - old(store.arrays)) && id in store.contents
    ensures ok <==> fate.Taken(|piece|) == |piece| && fate.Answered() && |old(store.contents[id])| != store.metadata[id].size
    ensures ok ==> store.contents[id] == old(store.contents[id]) + piece
    ensures store.contents - {id} == old(store.contents) - {id}
  {
    var taken := fate.Taken(|piece|);
    var f := store.GetUpload(id);
    var closed := f.value.isComplete;
    var _ := PlayMove(store, id, f.value, Chunk(piece[..taken]));
    ok := !closed && taken == |piece| && fate.Answered();
    assert taken == |piece| ==> piece[..taken] == piece;
  }

  lemma Reassociate(a: Bytes, b: Bytes, c: Bytes)
    ensures a + b + c == a + (b + c)
  {
  }

  /** io.Copy(stream, reader): stops at the first failed write or at the reader's end. */
  method Copy(store: MemoryStore, id: string, reader: Reader, choices: nat -> nat, fates: nat -> Fate)
      returns (ok: bool, written: nat)
    requires store.Valid() && Filed(store.metadata) && id in store.contents && id in store.metadata
    modifies reader, store`data, store`contents, store`arrays, store.arrays
    ensures store.Valid() && id in store.contents && store.contents - {id} == old(store.contents) - {id}
    ensures ok ==> !reader.broken && written == |old(reader.rest)|
                   && store.contents[id] == old(store.contents[id]) + old(reader.rest)
    ensures Faultless(fates) && |old(store.contents[id])| + |old(reader.rest)| <= store.metadata[id].size
            ==> ok == !reader.broken
  {
    written := 0;
    var i := 0;
    ghost var all, start, sent := reader.rest, store.contents[id], [];
    while reader.rest != []
      invariant store.Valid() && id in store.contents && fresh(store.arrays - old(store.arrays))
      invariant store.contents - {id} == old(store.contents) - {id}
      invariant sent + reader.rest == all && written == |sent| && store.contents[id] == start + sent
      decreases |reader.rest|
    {
      var piece := reader.Read(choices(i));
      var accepted := Patch(store, id, piece, fates(i));
      if !accepted {
        return false, written;
      }
      Reassociate(start, sent, piece);
      Reassociate(sent, piece, reader.rest);
      sent := sent + piece;
      written := written + |piece|;
      i := i + 1;
    }
    ok := !reader.broken;
  }

  /** Every request arrives whole and is answered. */
  ghost predicate Faultless(fates: nat -> Fate) {
    forall i :: fates(i) == Whole
  }

  function ResultSize(unixFSSize: int, transferred: int): int {
    if unixFSSize > 0 then unixFSSize else transferred
  }

  lemma Split(src: Bytes, n: nat, size: int, taken: nat)
    requires taken <= n <= |src|
    ensures src[..n][..taken] == src[..taken]
    ensures n == size ==> src[..taken] == src[..taken] + src[n..size]
    ensures n <= size == |src| ==> src[n..] == src[n..size]
  {
  }

  /**
   uploadViaTUS.  On success the server holds what it accepted of the initial chunk followed
   by everything after that chunk, and the reader really had `size` bytes; so those are the
   first `size` bytes if and only if the server accepted the chunk whole.  What is accepted has
   no influence on success: with the first request answered and no fault after it, the client
   succeeds exactly on an uploadable reader.
   */
  method UploadViaTUS(store: MemoryStore, location: string, reader: Reader, size: int, unixFSSize: int,
                      create: Option<Fate>, choices: nat -> nat, fates: nat -> Fate)
      returns (r: UploadOutcome)
    requires store.Valid() && Filed(store.metadata)
    modifies reader, store`data, store`contents, store`metadata, store`arrays, store.arrays
    ensures store.Valid() && store.contents - {location} == old(store.contents) - {location}
    ensures r.Done? ==> 0 <= size <= |old(reader.rest)| && create.Some? && create.value.Answered()
    ensures r.Done? ==> var n := if size < 2097152 then size else 2097152; var taken := create.value.Taken(n);
              && r.location == location && location in store.contents
              && store.contents[location] == old(reader.rest)[..taken] + old(reader.rest)[n..size]
              && (store.contents[location] == old(reader.rest)[..size] <==> taken == n)
              && r.size == if unixFSSize > 0 then unixFSSize else if size == n then taken else size
    ensures create.Some? && create.value.Answered() && Faultless(fates) ==>
              (r.Done? <==> Uploadable(old(reader.rest), reader.broken, size))
  {
    ghost var src := reader.rest;
    var readSize := Min(INITIAL_CHUNK, size);
    var chunk: Bytes := [];
    if readSize > 0 {
      var outcome := reader.ReadFull(readSize);
      match outcome {
        case Short(_) => return Error(Incomplete);
        case ReadError => return Error(ReadFailed);
        case Full(bytes) => chunk := bytes;
      }
    }
    if create.None? {
      return Error(CreateFailed);
    }
    var uploadedBytes := CreateWithData(store, location, chunk, size, create.value);
    if !create.value.Answered() {
      return Error(CreateFailed);
    }
    Split(src, |chunk|, size, uploadedBytes);
    if 0 <= size <= |src| {
      ConservedIffChunkWhole(src, size, uploadedBytes);
    }
    if |chunk| == size {
      return Done(location, ResultSize(unixFSSize, uploadedBytes));
    }
    var ok, written := Copy(store, location, reader, choices, fates);
    if !ok {
      return Error(Interrupted);
    }
    var total := |chunk| + written;
    if total != size {
      return Error(Incomplete);
    }
    r := Done(location, ResultSize(unixFSSize, total));
  }

  /** What the client can upload when nothing goes wrong: within one chunk the reader must
      have at least `size` bytes; beyond it, exactly `size`. */
  predicate Uploadable(src: Bytes, broken: bool, size: int) {
    if size <= INITIAL_CHUNK then 0 <= size <= |src| else |src| == size && !broken
  }

  /** Byte conservation, and exactly when it holds: after a success the server has the first
      `size` bytes of the reader if and only if it had accepted the initial chunk whole,
      which the client never compares. */
  lemma ConservedIffChunkWhole(src: Bytes, size: nat, taken: nat)
    requires size <= |src| && taken <= Min(INITIAL_CHUNK, size)
    ensures var n := Min(INITIAL_CHUNK, size);
            src[..taken] + src[n..size] == src[..size] <==> taken == n
  {
    var n := Min(INITIAL_CHUNK, size);
    if taken < n {
      assert |src[..taken] + src[n..size]| < |src[..size]|;
    } else {
      assert src[..n] + src[n..size] == src[..size];
    }
  }

  /** The failing family: however little of the initial chunk the server accepts, an upload
      that otherwise goes well is reported as a success over a file with bytes missing. */
  method PartialChunkReportedAsSuccess(store: MemoryStore, location: string, data: Bytes, accepted: nat,
                                       choices: nat -> nat, fates: nat -> Fate)
      returns (r: UploadOutcome)
    requires store.Valid() && Filed(store.metadata) && accepted < Min(INITIAL_CHUNK, |data|) && Faultless(fates)
    modifies store`data, store`contents, store`metadata, store`arrays, store.arrays
    ensures r.Done? && r.location == location && location in store.contents
    ensures |store.contents[location]| < |data|
    ensures |data| > INITIAL_CHUNK ==> r.size == |data|
  {
    var reader := new Reader(data, false);
    r := UploadViaTUS(store, location, reader, |data|, 0, Some(Cut(accepted, true)), choices, fates);
  }

  /** One such upload: ten bytes, none of them accepted with the creation request, and a
      success over an empty file. */
  method EmptyFileReportedAsSuccess() returns (r: UploadOutcome, store: MemoryStore)
    ensures r == Done("a", 0) && "a" in store.contents && store.contents["a"] == []
  {
    store := new MemoryStore();
    var data: Bytes := [1, 2, 3, 4, 5, 6, 7, 8, 9, 10];
    var reader := new Reader(data, false);
    r := UploadViaTUS(store, "a", reader, 10, 0, Some(Cut(0, true)), _ => 1, _ => Whole);
  }
}
