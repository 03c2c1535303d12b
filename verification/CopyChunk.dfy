/** Replica copying: a node fetches a verified chunk from another node and puts it locally. */
module CopyChunk {
  import opened Prelude
  import opened ChunkFile
  import DiskStore

  /** A storage node's directory. */
  datatype Disk = Disk(base: string, files: Files)

  function Read(sha: Sha, disk: Disk, id: string): Result<Bytes, Error> {
    GetChunk(sha, disk.base, disk.files, id)
  }

  /** The result of CopyChunk and the target's directory afterwards. */
  function Copy(sha: Sha, target: Disk, source: Disk, id: string): (Result<(), Error>, Disk) {
    if id == "" then (Err(InvalidArgument), target)
    else
      match Read(sha, source, id)
      case Err(e) => (Err(e), target)
      case Ok(data) =>
        var put := PutChunk(sha, target.base, target.files, id, data);
        (put.outcome, target.(files := put.files))
  }

  class NodeServer {
    const store: DiskStore.DiskStore

    constructor (s: DiskStore.DiskStore)
      ensures store == s
    {
      store := s;
    }

    function Local(): Disk
      reads store
    {
      Disk(store.baseDir, store.files)
    }

    /** Pulls the chunk through the source's verifying stream, then puts it into the local store. */
    method CopyChunk(source: NodeServer, chunkId: string) returns (r: Result<(), Error>)
      requires source.store.sha == store.sha
      modifies store
      ensures (r, Local()) == Copy(store.sha, old(Local()), old(source.Local()), chunkId)
      ensures old(store.usedBytes) == TotalBytes(old(store.files)) ==> store.usedBytes == TotalBytes(store.files)
    {
      if chunkId == "" {
        return Err(InvalidArgument);
      }
      var fetched := source.store.GetAll(chunkId);
      if fetched.Err? {
        return Err(fetched.error);
      }
      ghost var trace;
      r, trace := store.Put(chunkId, fetched.value);
    }
  }

  predicate SameHeader(sha: Sha, a: Bytes, b: Bytes) {
    |a| == |b| && sha(a) == sha(b)
  }

  /** What a caller sees. A failing copy leaves the target alone; no copy touches another chunk; and on a target that
      has nothing for this ID, or something readable, a copy succeeds exactly when the source yields at most 16 MiB that agree in length and digest with what is there, and then the chunk is readable at the target. */
  lemma CopyExact(sha: Sha, target: Disk, source: Disk, id: string)
    ensures var (outcome, after) := Copy(sha, target, source, id);
            var present, fetched := Read(sha, target, id), Read(sha, source, id);
            && (outcome.Err? ==> after == target)
            && (forall other :: other != id ==> Read(sha, after, other) == Read(sha, target, other))
            && (present != Err(IntegrityViolation) ==>
                  && (outcome.Ok? <==>
                        && id != "" && fetched.Ok? && |fetched.value| <= 16 * 1024 * 1024
                        && (present.Ok? ==> SameHeader(sha, present.value, fetched.value)))
                  && (outcome.Ok? ==> Read(sha, after, id) == if present.Ok? then present else fetched))
  {
    var (outcome, after) := Copy(sha, target, source, id);
    forall other | other != id ensures Read(sha, after, other) == Read(sha, target, other) {
      if Path(target.base, other) == Path(target.base, id) {
        PathInjective(target.base, other, id);
      }
    }
    if Read(sha, source, id).Ok? && |Read(sha, source, id).value| <= MAX_SIZE {
      var data := Read(sha, source, id).value;
      MaxSizeFits();
      IntactIffEncoded(sha, Encode(sha, data), data);
    }
  }

  /** After a successful copy the target reads as the source does, exactly when the target had no file of that name,
      or an intact one that does not collide: Put compares headers, not payloads. */
  lemma CopyAgreesExactly(sha: Sha, target: Disk, source: Disk, id: string)
    requires Copy(sha, target, source, id).0.Ok?
    ensures Read(sha, Copy(sha, target, source, id).1, id) == Read(sha, source, id)
            <==> (Path(target.base, id) in target.files ==>
                    var file := target.files[Path(target.base, id)];
                    Intact(sha, file) && !Collide(sha, Payload(file), Read(sha, source, id).value))
  {
    var data := Read(sha, source, id).value;
    MaxSizeFits();
    EncodeLayout(sha, data);
  }

  /** A file whose header describes `data` but whose payload is something else. */
  function Forged(sha: Sha, data: Bytes, junk: Bytes): Bytes {
    sha(data) + BigEndian(|data|, LENGTH_SIZE) + junk
  }

  lemma ForgedLayout(sha: Sha, data: Bytes, junk: Bytes)
    requires |data| <= MAX_SIZE
    ensures HeaderMatches(sha, Forged(sha, data, junk), data)
    ensures Payload(Forged(sha, data, junk)) == junk
  {
    MaxSizeFits();
    var file := Forged(sha, data, junk);
    BigEndianDecodes(|data|, LENGTH_SIZE);
    assert file[..CHECKSUM_SIZE] == sha(data);
    assert file[CHECKSUM_SIZE..HEADER_SIZE] == BigEndian(|data|, LENGTH_SIZE);
    assert file[HEADER_SIZE..] == junk;
  }

  /** A corrupted replica under a matching header is reported as a success although it cannot be read. */
  lemma CorruptTargetPasses(sha: Sha, target: Disk, source: Disk, id: string, data: Bytes, junk: Bytes)
    requires id != "" && |data| <= MAX_SIZE && (|junk| != |data| || sha(junk) != sha(data))
    requires Path(target.base, id) in target.files && target.files[Path(target.base, id)] == Forged(sha, data, junk)
    requires Read(sha, source, id) == Ok(data)
    ensures Copy(sha, target, source, id) == (Ok(()), target)
    ensures Read(sha, target, id) == Err(IntegrityViolation)
  {
    ForgedLayout(sha, data, junk);
  }

  /** Whatever the hash, the ID and the payload, some target is damaged in this way. */
  lemma CorruptTargetExists(sha: Sha, base: string, id: string, data: Bytes) returns (target: Disk, source: Disk)
    requires id != "" && |data| <= MAX_SIZE
    ensures Read(sha, source, id) == Ok(data)
    ensures Copy(sha, target, source, id) == (Ok(()), target)
    ensures Read(sha, target, id) == Err(IntegrityViolation)
  {
    var junk: Bytes := data + [0];
    source := Disk(base, map[Path(base, id) := Encode(sha, data)]);
    target := Disk(base, map[Path(base, id) := Forged(sha, data, junk)]);
    MaxSizeFits();
    IntactIffEncoded(sha, Encode(sha, data), data);
    CorruptTargetPasses(sha, target, source, id, data, junk);
  }

  /** A target that holds other bytes for this ID rejects the copy, unless the two collide. */
  lemma DifferentTargetRejects(sha: Sha, target: Disk, source: Disk, id: string, data: Bytes)
    requires Read(sha, target, id) == Ok(data) && Read(sha, source, id) != Ok(data)
    requires Read(sha, source, id).Ok? ==> !Collide(sha, data, Read(sha, source, id).value)
    ensures Copy(sha, target, source, id).0.Err?
    ensures Read(sha, Copy(sha, target, source, id).1, id) == Ok(data)
  {
    CopyExact(sha, target, source, id);
    hide Read, Copy;
  }
}
