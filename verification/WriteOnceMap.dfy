/** The chunk store as a write-once map, and what a crash during a Put can leave behind. */
module WriteOnceMap {
  import opened Prelude
  import opened ChunkFile
  import opened DiskStore

  datatype Op = Put(id: string, data: Bytes) | Get(id: string) | Delete(id: string)

  datatype Reply = Stored(outcome: Result<(), Error>) | Fetched(content: Result<Bytes, Error>) | Removed

  type Chunks = map<string, Bytes>

  /** The specification: an entry, once made, is never replaced. */
  function MapStep(m: Chunks, op: Op): (Reply, Chunks) {
    match op
    case Put(id, data) =>
      if |data| > MAX_SIZE then (Stored(Err(InvalidArgument)), m)
      else if id in m then (Stored(if m[id] == data then Ok(()) else Err(IntegrityViolation)), m)
      else (Stored(Ok(())), m[id := data])
    case Get(id) => (Fetched(if id in m then Ok(m[id]) else Err(NotFound)), m)
    case Delete(id) => (Removed, m - {id})
  }

  function FileStep(sha: Sha, base: string, files: Files, op: Op): (Reply, Files) {
    match op
    case Put(id, data) => var put := PutChunk(sha, base, files, id, data); (Stored(put.outcome), put.files)
    case Get(id) => (Fetched(GetChunk(sha, base, files, id)), files)
    case Delete(id) => (Removed, DeleteChunk(base, files, id))
  }

  function MapRun(m: Chunks, ops: seq<Op>): seq<Reply>
    decreases |ops|
  {
    if ops == [] then [] else [MapStep(m, ops[0]).0] + MapRun(MapStep(m, ops[0]).1, ops[1..])
  }

  function FileRun(sha: Sha, base: string, files: Files, ops: seq<Op>): seq<Reply>
    decreases |ops|
  {
    if ops == [] then []
    else [FileStep(sha, base, files, ops[0]).0] + FileRun(sha, base, FileStep(sha, base, files, ops[0]).1, ops[1..])
  }

  /** Plain IDs have exactly the encodings of the map's entries; other files (stray temporaries) are ignored. */
  ghost predicate Represents(sha: Sha, base: string, files: Files, m: Chunks) {
    && (forall id :: id in m ==> PlainId(id) && |m[id]| <= MAX_SIZE)
    && (forall id :: PlainId(id) ==> (Path(base, id) in files <==> id in m))
    && (forall id :: id in m ==> files[Path(base, id)] == Encode(sha, m[id]))
  }

  /** A Put on a present chunk changes nothing, and succeeds exactly when length and digest agree. */
  lemma PutPresentExact(sha: Sha, base: string, files: Files, m: Chunks, id: string, data: Bytes)
    requires Represents(sha, base, files, m) && id in m && |data| <= 16 * 1024 * 1024
    ensures PutChunk(sha, base, files, id, data).files == files
    ensures PutChunk(sha, base, files, id, data).outcome.Ok? <==> |m[id]| == |data| && sha(m[id]) == sha(data)
  {
    MaxSizeFits();
    EncodeLayout(sha, m[id]);
  }

  lemma GetRefines(sha: Sha, base: string, files: Files, m: Chunks, id: string)
    requires Represents(sha, base, files, m) && PlainId(id)
    ensures GetChunk(sha, base, files, id) == if id in m then Ok(m[id]) else Err(NotFound)
  {
    if id in m {
      MaxSizeFits();
      IntactIffEncoded(sha, files[Path(base, id)], m[id]);
    }
  }

  lemma PutRefines(sha: Sha, base: string, files: Files, m: Chunks, id: string, data: Bytes)
    requires Represents(sha, base, files, m) && PlainId(id)
    requires id in m ==> !Collide(sha, m[id], data)
    ensures Stored(PutChunk(sha, base, files, id, data).outcome) == MapStep(m, Put(id, data)).0
    ensures Represents(sha, base, PutChunk(sha, base, files, id, data).files, MapStep(m, Put(id, data)).1)
  {
    if |data| <= MAX_SIZE {
      if id in m {
        PutPresentExact(sha, base, files, m, id, data);
      } else {
        forall other | PlainId(other) && other != id ensures Path(base, other) != Path(base, id) {
          if Path(base, other) == Path(base, id) {
            PathInjective(base, other, id);
          }
        }
      }
    }
  }

  lemma DeleteRefines(sha: Sha, base: string, files: Files, m: Chunks, id: string)
    requires Represents(sha, base, files, m) && PlainId(id)
    ensures Represents(sha, base, DeleteChunk(base, files, id), m - {id})
  {
    forall other | PlainId(other) && other != id ensures Path(base, other) != Path(base, id) {
      if Path(base, other) == Path(base, id) {
        PathInjective(base, other, id);
      }
    }
  }

  /** Any serialized run of Put, Get and Delete answers as the write-once map does, unless payloads stored at the
      start or put during the run collide. */
  lemma {:induction false} RunRefines(sha: Sha, base: string, files: Files, m: Chunks, ops: seq<Op>, payloads: set<Bytes>)
    requires Separates(sha, payloads) && m.Values <= payloads
    requires forall i :: 0 <= i < |ops| && ops[i].Put? ==> ops[i].data in payloads
    requires Represents(sha, base, files, m)
    requires forall i :: 0 <= i < |ops| ==> PlainId(ops[i].id)
    ensures FileRun(sha, base, files, ops) == MapRun(m, ops)
    decreases |ops|
  {
    if ops != [] {
      match ops[0] {
        case Put(id, data) => PutRefines(sha, base, files, m, id, data);
        case Get(id) => GetRefines(sha, base, files, m, id);
        case Delete(id) => DeleteRefines(sha, base, files, m, id);
      }
      ValuesStay(m, ops[0], payloads);
      RunRefines(sha, base, FileStep(sha, base, files, ops[0]).1, MapStep(m, ops[0]).1, ops[1..], payloads);
    }
  }

  lemma ValuesStay(m: Chunks, op: Op, payloads: set<Bytes>)
    requires m.Values <= payloads && (op.Put? ==> op.data in payloads)
    ensures MapStep(m, op).1.Values <= payloads
  {
  }

  /** Whatever was put into an absent chunk is what Get returns. */
  lemma PutThenGet(sha: Sha, base: string, files: Files, id: string, data: Bytes)
    requires Path(base, id) !in files && |data| <= 16 * 1024 * 1024
    ensures PutChunk(sha, base, files, id, data).outcome == Ok(())
    ensures GetChunk(sha, base, PutChunk(sha, base, files, id, data).files, id) == Ok(data)
  {
    MaxSizeFits();
    IntactIffEncoded(sha, Encode(sha, data), data);
  }

  /** Every plain chunk reads the same from both directory trees. */
  ghost predicate SameReads(sha: Sha, base: string, a: Files, b: Files) {
    forall id :: PlainId(id) ==> GetChunk(sha, base, a, id) == GetChunk(sha, base, b, id)
  }

  /** After a crash every plain chunk reads as before the Put, or every one reads as after it. */
  lemma CrashAtomic(sha: Sha, base: string, before: Files, id: string, data: Bytes, crashed: Files)
    requires CrashState(sha, base, before, id, data, crashed)
    ensures SameReads(sha, base, crashed, before)
            || SameReads(sha, base, crashed, PutChunk(sha, base, before, id, data).files)
  {
    if crashed != before && crashed != PutChunk(sha, base, before, id, data).files {
      var suffix :| StrayTemp(before, TempPath(base, id, suffix), crashed);
      forall other | PlainId(other)
        ensures GetChunk(sha, base, crashed, other) == GetChunk(sha, base, before, other)
      {
        TempIsNoChunk(base, id, suffix, other);
      }
    }
  }

  /** A reopened store goes on as if the stray file were not there: all later replies are unchanged. */
  lemma {:induction false} StrayIsInvisible(
    sha: Sha, base: string, files: Files, temp: string, crashed: Files, id: string, suffix: string, ops: seq<Op>)
    requires temp == TempPath(base, id, suffix) && StrayTemp(files, temp, crashed)
    requires forall i :: 0 <= i < |ops| ==> PlainId(ops[i].id)
    ensures FileRun(sha, base, crashed, ops) == FileRun(sha, base, files, ops)
    decreases |ops|
  {
    if ops != [] {
      var op := ops[0];
      TempIsNoChunk(base, id, suffix, op.id);
      var a, b := FileStep(sha, base, files, op).1, FileStep(sha, base, crashed, op).1;
      assert b == a[temp := crashed[temp]];
      StrayIsInvisible(sha, base, a, temp, b, id, suffix, ops[1..]);
    }
  }

  /** Crash in the middle of a Put, reopen: contents are before-or-after, and the counter equals the scan again. */
  method CrashAndReopen(store: DiskStore, id: string, data: Bytes, crashed: Files) returns (reopened: DiskStore)
    requires CrashState(store.sha, store.baseDir, store.files, id, data, crashed)
    ensures fresh(reopened) && reopened.sha == store.sha && reopened.baseDir == store.baseDir
    ensures reopened.files == crashed && reopened.usedBytes == TotalBytes(reopened.files)
    ensures SameReads(store.sha, store.baseDir, reopened.files, store.files)
            || SameReads(store.sha, store.baseDir, reopened.files, PutChunk(store.sha, store.baseDir, store.files, id, data).files)
  {
    CrashAtomic(store.sha, store.baseDir, store.files, id, data, crashed);
    reopened := new DiskStore(store.baseDir, store.capacityBytes, store.sha, crashed);
  }
}
