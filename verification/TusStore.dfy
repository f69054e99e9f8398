/**
 The in-memory tus store of internal/tusstore/memory.go, on the heap: uploads are Go slices
 that `append` grows in place inside spare capacity, while readers handed out earlier keep
 looking at the same backing arrays.
 */
module TusStore {
  import opened Prelude

  // ---------- Go slices ----------

  /** A slice that starts at the first element of its backing array; cap is arr.Length. */
  datatype Slice = Slice(arr: array<bv8>, len: nat)

  ghost predicate Fits(s: Slice) {
    s.len <= s.arr.Length
  }

  ghost function Content(s: Slice): Bytes
    requires Fits(s)
    reads s.arr
  {
    s.arr[..s.len]
  }

  /** Go's append: in place when the capacity allows, otherwise into a new array whose
      capacity the language leaves open. */
  method Append(s: Slice, bytes: Bytes) returns (r: Slice)
    requires Fits(s)
    modifies s.arr
    ensures Fits(r) && r.len == s.len + |bytes| && Content(r) == old(Content(s)) + bytes
    ensures Content(s) == old(Content(s))
    ensures if s.len + |bytes| <= s.arr.Length then r.arr == s.arr else fresh(r.arr) && s.arr[..] == old(s.arr[..])
  {
    var total := s.len + |bytes|;
    var target := s.arr;
    if total > s.arr.Length {
      var cap: nat :| cap >= total;
      target := new bv8[cap];
      forall i | 0 <= i < s.len {
        target[i] := s.arr[i];
      }
    }
    forall i | 0 <= i < |bytes| {
      target[s.len + i] := bytes[i];
    }
    r := Slice(target, total);
  }

  // ---------- The store ----------

  datatype FileInfo = FileInfo(id: string, size: int, offset: int, sizeDeferred: bool)

  datatype Error = ErrClosed | ErrNotExist | ErrNotFound | ErrRead | UploadMissing(id: string)

  datatype Result<+T> = Ok(value: T) | Err(error: Error)

  /** An io.Reader as WriteChunk sees it: io.ReadAll yields all of it or an error. */
  datatype Source = Readable(bytes: Bytes) | Broken

  /** A slice given to a caller, with the bytes it held then. */
  datatype Snapshot = Snapshot(slice: Slice, bytes: Bytes)

  /** Appending to an entry, a missing one counting as empty. */
  function Appended(view: map<string, Bytes>, id: string, bytes: Bytes): map<string, Bytes> {
    view[id := (if id in view then view[id] else []) + bytes]
  }

  predicate AllStored(view: map<string, Bytes>, ids: seq<string>) {
    forall i :: 0 <= i < |ids| ==> ids[i] in view
  }

  /** The stored bytes of several uploads, one after the other. */
  function Joined(view: map<string, Bytes>, ids: seq<string>): Bytes
    requires AllStored(view, ids)
  {
    if ids == [] then [] else Joined(view, ids[..|ids| - 1]) + view[ids[|ids| - 1]]
  }

  lemma JoinedStep(view: map<string, Bytes>, ids: seq<string>, i: nat)
    requires i < |ids| && AllStored(view, ids[..i + 1])
    ensures AllStored(view, ids[..i])
    ensures ids[i] in view && Joined(view, ids[..i + 1]) == Joined(view, ids[..i]) + view[ids[i]]
  {
    assert ids[..i + 1][..i] == ids[..i];
    assert ids[i] == ids[..i + 1][i];
  }

  /** The number of bytes in several uploads, from the first on. */
  function TotalLength(view: map<string, Bytes>, ids: seq<string>): nat
    requires AllStored(view, ids)
  {
    if ids == [] then 0 else |view[ids[0]]| + TotalLength(view, ids[1..])
  }

  lemma {:induction false} TotalLengthStep(view: map<string, Bytes>, ids: seq<string>, id: string)
    requires AllStored(view, ids) && id in view
    ensures AllStored(view, ids + [id]) && TotalLength(view, ids + [id]) == TotalLength(view, ids) + |view[id]|
  {
    if ids == [] {
      assert [id][1..] == [] && ids + [id] == [id];
    } else {
      TotalLengthStep(view, ids[1..], id);
      assert (ids + [id])[1..] == ids[1..] + [id];
    }
  }

  /** A concatenation has the parts' bytes and nothing else: its length is theirs together, and
      part i lies right behind the bytes of the parts before it. */
  lemma {:induction false} JoinedPlaces(view: map<string, Bytes>, ids: seq<string>)
    requires AllStored(view, ids)
    ensures |Joined(view, ids)| == TotalLength(view, ids)
    ensures forall i :: 0 <= i < |ids| ==> PartAt(view, ids, i)
  {
    if ids != [] {
      var front, last := ids[..|ids| - 1], ids[|ids| - 1];
      JoinedPlaces(view, front);
      TotalLengthStep(view, front, last);
      assert front + [last] == ids;
      forall i | 0 <= i < |ids|
        ensures PartAt(view, ids, i)
      {
        assert ids[..i] == front[..i];
        if i < |front| {
          assert PartAt(view, front, i);
          var start := TotalLength(view, front[..i]);
          assert Joined(view, ids)[start..start + |view[ids[i]]|] == Joined(view, front)[start..start + |view[ids[i]]|];
        } else {
          assert front[..i] == front;
        }
      }
    }
  }

  ghost predicate PartAt(view: map<string, Bytes>, ids: seq<string>, i: nat)
    requires AllStored(view, ids) && i < |ids|
  {
    var start, part := TotalLength(view, ids[..i]), view[ids[i]];
    start + |part| <= |Joined(view, ids)| && Joined(view, ids)[start..start + |part|] == part
  }

  class MemoryStore {
    var data: map<string, Slice>
    var metadata: map<string, FileInfo>
    ghost var contents: map<string, Bytes> // the stored bytes, by upload id
    ghost var arrays: set<array<bv8>>      // every backing array ever used
    ghost var handed: seq<Snapshot>        // every slice ever handed out

    /** Every handed-out slice still holds the bytes it held when it was handed out. */
    ghost predicate HandedKept()
      reads this`handed, this`arrays, arrays
    {
      forall n :: n in handed ==> n.slice.arr in arrays && Fits(n.slice) && Content(n.slice) == n.bytes
    }

    /** s may be stored under id: no other upload shares its array, and no handed-out slice
        of that array reaches past it, so nothing visible is overwritten by growing it. */
    ghost predicate MayHold(id: string, s: Slice)
      reads this`data, this`handed, this`arrays
    {
      && s.arr in arrays && Fits(s)
      && (forall id' :: id' in data && id' != id ==> data[id'].arr != s.arr)
      && (forall n :: n in handed && n.slice.arr == s.arr ==> n.slice.len <= s.len)
    }

    ghost predicate Valid()
      reads this`data, this`contents, this`handed, this`arrays, arrays
    {
      && HandedKept() && contents.Keys == data.Keys
      && forall id :: id in data ==> MayHold(id, data[id]) && Content(data[id]) == contents[id]
    }

    constructor ()
      ensures Valid() && contents == map[] && metadata == map[] && handed == [] && fresh(arrays)
    {
      data, metadata, contents, arrays, handed := map[], map[], map[], {}, [];
    }

    method Install(id: string, s: Slice)
      requires Valid() && MayHold(id, s)
      modifies this`data, this`contents
      ensures Valid() && contents == old(contents)[id := Content(s)]
    {
      data := data[id := s];
      contents := contents[id := Content(s)];
    }

    /** make([]byte, 0, capacity): an array nothing else can see. */
    method Make(capacity: nat) returns (s: Slice)
      requires Valid()
      modifies this`arrays
      ensures Valid() && fresh(arrays - old(arrays)) && old(arrays) <= arrays
      ensures s.len == 0 && fresh(s.arr) && forall id :: MayHold(id, s)
    {
      var buffer := new bv8[capacity];
      arrays := arrays + {buffer};
      s := Slice(buffer, 0);
    }

    /** append(s, bytes...) for a slice that may be stored under id: nothing visible changes. */
    method Grow(id: string, s: Slice, bytes: Bytes) returns (r: Slice)
      requires Valid() && MayHold(id, s)
      requires id in data && data[id].arr == s.arr ==> data[id] == s
      modifies this`arrays, s.arr
      ensures Valid() && fresh(arrays - old(arrays)) && old(arrays) <= arrays
      ensures MayHold(id, r) && Content(r) == old(Content(s)) + bytes
    {
      r := Append(s, bytes);
      forall n | n in handed
        ensures Content(n.slice) == n.bytes
      {
        if n.slice.arr == s.arr {
          assert n.slice.arr[..n.slice.len] == Content(s)[..n.slice.len];
        }
      }
      arrays := arrays + {r.arr};
    }

    /** data[id] = append(data[id], bytes...), with a missing entry read as a nil slice. */
    method AppendTo(id: string, bytes: Bytes) returns (length: nat)
      requires Valid()
      modifies this`data, this`contents, this`arrays, arrays
      ensures Valid() && fresh(arrays - old(arrays)) && old(arrays) <= arrays
      ensures contents == Appended(old(contents), id, bytes)
      ensures length == |contents[id]|
    {
      var existing: Slice;
      if id in data {
        existing := data[id];
      } else {
        existing := Make(0);
      }
      var extended := Grow(id, existing, bytes);
      Install(id, extended);
      length := extended.len;
    }

    method Reset(id: string, size: int)
      requires Valid()
      modifies this`data, this`contents, this`arrays
      ensures Valid() && fresh(arrays - old(arrays)) && old(arrays) <= arrays
      ensures contents == old(contents)[id := []]
    {
      var buffer := Make(if size > 0 then size else 0);
      Install(id, buffer);
    }

    /** NewUpload: an empty slice with the declared size as capacity replaces any old entry. */
    method NewUpload(info: FileInfo, generated: string) returns (f: MemoryFile)
      requires Valid()
      modifies this`data, this`contents, this`metadata, this`arrays
      ensures Valid() && fresh(f) && fresh(arrays - old(arrays)) && old(arrays) <= arrays
      ensures var id := if info.id == "" then generated else info.id;
              && contents == old(contents)[id := []]
              && f.store == this && f.info == info.(id := id) && !f.isComplete
              && metadata == old(metadata)[id := f.info]
    {
      var id := if info.id == "" then generated else info.id;
      Reset(id, info.size);
      f := new MemoryFile(this, info.(id := id), false);
      f.WriteInfo();
    }

    /** GetUpload: a new handle whose offset is the stored length. */
    method GetUpload(id: string) returns (r: Result<MemoryFile>)
      requires Valid()
      ensures r.Ok? <==> id in metadata && id in data
      ensures r.Err? ==> r.error == ErrNotFound
      ensures r.Ok? ==>
                && fresh(r.value) && r.value.store == this
                && r.value.info == metadata[id].(offset := |contents[id]|)
                && r.value.isComplete == (|contents[id]| == metadata[id].size)
    {
      if id !in metadata || id !in data {
        return Err(ErrNotFound);
      }
      var info := metadata[id].(offset := data[id].len);
      var f := new MemoryFile(this, info, info.offset == info.size);
      r := Ok(f);
    }

    /** GetReader and GetData: the stored slice itself is handed out. */
    method HandOut(id: string) returns (r: Result<Slice>)
      requires Valid()
      modifies this`handed
      ensures Valid()
      ensures r.Ok? <==> id in data
      ensures r.Ok? ==> Fits(r.value) && handed == old(handed) + [Snapshot(r.value, contents[id])]
      ensures r.Err? ==> handed == old(handed) && r.error == ErrNotFound
    {
      if id !in data {
        return Err(ErrNotFound);
      }
      r := Ok(data[id]);
      handed := handed + [Snapshot(data[id], Content(data[id]))];
    }

    /** AssembleUploads: one reader over the stored slices themselves, in order; an error as
        soon as one upload is missing. */
    method AssembleUploads(ids: seq<string>) returns (r: Result<seq<Slice>>)
      requires Valid()
      modifies this`handed
      ensures Valid() && old(handed) <= handed
      ensures r.Ok? <==> AllStored(contents, ids)
      ensures r.Err? ==> r.error == ErrNotExist
      ensures r.Ok? ==> HandsOut(r.value, ids)
    {
      var readers: seq<Slice> := [];
      for i := 0 to |ids|
        invariant Valid() && old(handed) <= handed && |readers| == i
        invariant AllStored(contents, ids[..i]) && HandsOut(readers, ids[..i])
      {
        var out := HandOut(ids[i]);
        if out.Err? {
          assert ids[i] !in contents;
          return Err(ErrNotExist);
        }
        assert (readers + [out.value])[..i] == readers;
        readers := readers + [out.value];
      }
      assert ids[..|ids|] == ids;
      r := Ok(readers);
    }

    /** The slices were handed out, each holding the bytes stored under its id. */
    ghost predicate HandsOut(slices: seq<Slice>, ids: seq<string>)
      requires Valid() && AllStored(contents, ids)
      reads this`data, this`contents, this`handed, this`arrays, arrays
    {
      |slices| == |ids| && forall i :: 0 <= i < |slices| ==> Snapshot(slices[i], contents[ids[i]]) in handed
    }
  }

  ghost function IdsOf(uploads: seq<MemoryFile>): (ids: seq<string>)
    reads uploads
    ensures |ids| == |uploads| && forall i :: 0 <= i < |ids| ==> ids[i] == uploads[i].info.id
  {
    seq(|uploads|, i requires 0 <= i < |uploads| reads uploads => uploads[i].info.id)
  }

  /** An upload handle: its info is a copy made when the handle was made. */
  class MemoryFile {
    const store: MemoryStore
    var info: FileInfo
    var isComplete: bool

    constructor (store: MemoryStore, info: FileInfo, isComplete: bool)
      ensures this.store == store && this.info == info && this.isComplete == isComplete
    {
      this.store, this.info, this.isComplete := store, info, isComplete;
    }

    method WriteInfo()
      modifies store`metadata
      ensures store.metadata == old(store.metadata)[info.id := info]
    {
      store.metadata := store.metadata[info.id := info];
    }

    /** WriteChunk: the offset argument is ignored, bytes go to the end of the entry. */
    method WriteChunk(src: Source) returns (r: Result<nat>)
      requires store.Valid()
      modifies this`info, store`data, store`contents, store`arrays, store.arrays
      ensures store.Valid() && fresh(store.arrays - old(store.arrays)) && old(store.arrays) <= store.arrays
      ensures r == if old(isComplete) then Err(ErrClosed)
                   else if src.Broken? then Err(ErrRead)
                   else if old(info.id !in store.data) then Err(ErrNotExist)
                   else Ok(|src.bytes|)
      ensures r.Ok? ==> store.contents == Appended(old(store.contents), old(info.id), src.bytes)
      ensures r.Err? ==> store.contents == old(store.contents)
      ensures info == old(info).(offset := old(info.offset) + if r.Ok? then r.value else 0)
    {
      if isComplete {
        return Err(ErrClosed);
      }
      if src.Broken? {
        return Err(ErrRead);
      }
      if info.id !in store.data {
        return Err(ErrNotExist);
      }
      var _ := store.AppendTo(info.id, src.bytes);
      info := info.(offset := info.offset + |src.bytes|);
      r := Ok(|src.bytes|);
    }

    /** GetReader of a handle: as the store's, under this handle's id. */
    method GetReader() returns (r: Result<Slice>)
      requires store.Valid()
      modifies store`handed
      ensures store.Valid()
      ensures r.Ok? <==> info.id in store.data
      ensures r.Ok? ==> Fits(r.value) && store.handed == old(store.handed) + [Snapshot(r.value, store.contents[info.id])]
      ensures r.Err? ==> store.handed == old(store.handed) && r.error == ErrNotExist
    {
      r := store.HandOut(info.id);
      if r.Err? {
        r := Err(ErrNotExist);
      }
    }

    /** ConcatUploads, first half: copy the parts, in order. */
    method Collect(uploads: seq<MemoryFile>) returns (r: Result<Bytes>)
      requires store.Valid()
      ensures r.Ok? <==> AllStored(store.contents, IdsOf(uploads))
      ensures r.Ok? ==> r.value == Joined(store.contents, IdsOf(uploads))
    {
      var result: Bytes := [];
      ghost var view, ids := store.contents, IdsOf(uploads);
      for i := 0 to |uploads|
        invariant AllStored(view, ids[..i]) && result == Joined(view, ids[..i])
      {
        var id := uploads[i].info.id;
        assert id == ids[i];
        if id !in store.data {
          return Err(UploadMissing(id));
        }
        JoinedStep(view, ids, i);
        result := result + store.data[id].arr[..store.data[id].len];
      }
      assert ids[..|uploads|] == ids;
      r := Ok(result);
    }

    /** ConcatUploads: the parts are appended to this upload's own entry, which need not exist. */
    method ConcatUploads(uploads: seq<MemoryFile>) returns (r: Result<()>)
      requires store.Valid()
      modifies this`info, this`isComplete, store`data, store`contents, store`arrays, store.arrays
      ensures store.Valid() && fresh(store.arrays - old(store.arrays)) && old(store.arrays) <= store.arrays
      ensures var view, ids := old(store.contents), old(IdsOf(uploads));
              && (r.Ok? <==> AllStored(view, ids))
              && (r.Err? ==> store.contents == view && info == old(info) && isComplete == old(isComplete))
              && (r.Ok? ==>
                    && store.contents == Appended(view, old(info.id), Joined(view, ids))
                    && info == old(info).(offset := |store.contents[old(info.id)]|)
                    && isComplete == (old(isComplete) || info.offset == info.size))
    {
      var parts := Collect(uploads);
      if parts.Err? {
        return Err(parts.error);
      }
      var length := store.AppendTo(info.id, parts.value);
      info := info.(offset := length);
      if info.offset == info.size {
        isComplete := true;
      }
      r := Ok(());
    }

    method Terminate()
      requires store.Valid()
      modifies store`data, store`contents, store`metadata
      ensures store.Valid()
      ensures store.contents == old(store.contents) - {info.id} && store.metadata == old(store.metadata) - {info.id}
    {
      store.data := store.data - {info.id};
      store.contents := store.contents - {info.id};
      store.metadata := store.metadata - {info.id};
    }

    method FinishUpload()
      modifies this
      ensures isComplete && info == old(info).(offset := old(info.size))
    {
      isComplete := true;
      info := info.(offset := info.size);
    }

    method DeclareLength(length: int)
      modifies this`info, store`metadata
      ensures info == old(info).(size := length, sizeDeferred := false)
      ensures store.metadata == old(store.metadata)[info.id := info]
    {
      info := info.(size := length, sizeDeferred := false);
      WriteInfo();
    }
  }
}
