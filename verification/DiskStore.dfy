/** The on-disk chunk store: write-once files behind a verifying stream, and a byte counter. */
module DiskStore {
  import opened Prelude
  import opened ChunkFile

  datatype ReadStatus = More | Eof | Mismatch | Closed

  /** How many of the buffers have room for a byte. */
  function Roomy(sizes: seq<nat>): nat {
    if sizes == [] then 0
    else Roomy(sizes[..|sizes| - 1]) + if sizes[|sizes| - 1] > 0 then 1 else 0
  }

  /** Hashes what it hands out and compares with the header when the file ends. */
  class VerifiedReader {
    const sha: Sha
    const file: Bytes
    const expectedHash: Bytes
    const expectedLength: nat
    var position: nat
    var hashed: Bytes
    var readBytes: nat
    var done: bool
    var closed: bool

    /** What was hashed is the payload up to the read position. */
    ghost predicate Valid()
      reads this
    {
      && HasHeader(file)
      && expectedHash == StoredChecksum(file)
      && expectedLength == StoredLength(file)
      && readBytes == |hashed| <= |Payload(file)|
      && position == HEADER_SIZE + readBytes
      && hashed == Payload(file)[..readBytes]
      && (done ==> Intact(sha, file))
    }

    /** Get: the header has been read, the stream stands at the payload. */
    constructor (sha: Sha, file: Bytes)
      requires HasHeader(file)
      ensures Valid() && this.sha == sha && this.file == file && readBytes == 0 && !closed
    {
      this.sha, this.file := sha, file;
      expectedHash, expectedLength := StoredChecksum(file), StoredLength(file);
      position, hashed, readBytes, done, closed := HEADER_SIZE, [], 0, false, false;
    }

    /** os.File.Read: at least one byte unless at the end or asked for none; end of file comes alone. */
    method FileRead(size: nat) returns (data: Bytes, status: ReadStatus)
      requires Valid()
      modifies this`position
      ensures closed ==> data == [] && status == Closed
      ensures !closed ==> status == More || status == Eof
      ensures !closed ==> (status == Eof <==> size > 0 && old(position) == |file|)
      ensures status == Eof ==> data == []
      ensures status == More && size > 0 ==> data != []
      ensures position == old(position) + |data| <= |file| && data == file[old(position)..position] && |data| <= size
    {
      data, status := [], More;
      if closed {
        status := Closed;
      } else if size > 0 {
        if position == |file| {
          status := Eof;
        } else {
          var n :| 1 <= n <= size && n <= |file| - position;
          data := file[position..position + n];
          position := position + n;
        }
      }
    }

    method Read(size: nat) returns (data: Bytes, status: ReadStatus)
      requires Valid()
      modifies this
      ensures Valid()
      ensures hashed == old(hashed) + data && |data| <= size
      ensures !old(closed) ==> status != Closed
      ensures !old(closed) && status != Mismatch ==> !closed
      ensures status == More && size > 0 ==> data != []
      ensures !old(closed) && size > 0 ==>
        (status == More <==> old(readBytes) < |Payload(file)|)
      ensures !old(closed) && size == 0 ==> status == More
      ensures status == Eof ==> Intact(sha, file) && hashed == Payload(file)
      ensures status == Mismatch ==> !Intact(sha, file) && data == []
    {
      data, status := FileRead(size);
      if data != [] {
        hashed := hashed + data;
        readBytes := readBytes + |data|;
      }
      assert data == Payload(file)[old(readBytes)..old(readBytes) + |data|];
      assert hashed == Payload(file)[..readBytes];
      if status == Eof && !done {
        assert Payload(file)[..readBytes] == Payload(file);
        if readBytes != expectedLength || sha(hashed) != expectedHash {
          closed := true;
          return [], Mismatch;
        }
        done := true;
      }
      if status == Eof {
        assert Payload(file)[..readBytes] == Payload(file);
      }
    }

    /** Any sequence of buffer sizes, stopping at the first status other than More. Every buffer with room brings the
        end nearer, so with one more of them than the payload has bytes the end is reached. */
    method ReadSizes(sizes: seq<nat>) returns (received: Bytes, status: ReadStatus)
      requires Valid() && readBytes == 0 && !closed
      modifies this
      ensures received <= Payload(file)
      ensures status == Eof ==> Intact(sha, file) && received == Payload(file)
      ensures status == Mismatch ==> !Intact(sha, file)
      ensures status != Closed
      ensures status == More ==> Roomy(sizes) <= |received|
      ensures Roomy(sizes) > |Payload(file)| ==> status == if Intact(sha, file) then Eof else Mismatch
    {
      received, status := [], More;
      for i := 0 to |sizes|
        invariant Valid() && hashed == received && !closed && status == More
        invariant Roomy(sizes[..i]) <= |received|
      {
        var piece: Bytes;
        piece, status := Read(sizes[i]);
        received := received + piece;
        if status != More {
          return;
        }
        assert sizes[..i + 1][..i] == sizes[..i];
      }
      assert sizes[..|sizes|] == sizes;
    }

    /** io.ReadAll: buffers of any positive size until the stream ends. It succeeds exactly on an intact file. */
    method ReadAll() returns (r: Result<Bytes, Error>)
      requires Valid() && readBytes == 0 && !closed
      modifies this
      ensures r == if Intact(sha, file) then Ok(Payload(file)) else Err(IntegrityViolation)
    {
      var received: Bytes := [];
      while true
        invariant Valid() && hashed == received && !closed
        decreases |Payload(file)| - readBytes
      {
        var size: nat :| size > 0;
        var piece, status := Read(size);
        received := received + piece;
        if status == Eof {
          return Ok(received);
        }
        if status == Mismatch {
          return Err(IntegrityViolation);
        }
      }
    }
  }

  /** `crashed` is `before` plus a file at `temp`, whatever its content. */
  ghost predicate StrayTemp(before: Files, temp: string, crashed: Files) {
    temp !in before && temp in crashed && crashed == before[temp := crashed[temp]]
  }

  /** The directory trees a crash during a Put can leave behind: nothing done, a stray temporary
      file with any content, or everything done. */
  ghost predicate CrashState(sha: Sha, base: string, before: Files, id: string, data: Bytes, crashed: Files) {
    || crashed == before
    || (exists suffix :: StrayTemp(before, TempPath(base, id, suffix), crashed))
    || crashed == PutChunk(sha, base, before, id, data).files
  }

  /** The directory trees, in order, of a Put that creates a file: untouched, the temporary file growing, renamed. */
  function PutTrace(sha: Sha, base: string, before: Files, id: string, data: Bytes, suffix: string): seq<Files> {
    var temp := TempPath(base, id, suffix);
    [before, before[temp := Written(sha, data, 0)], before[temp := Written(sha, data, 1)],
     before[temp := Written(sha, data, 2)], before[temp := Written(sha, data, LAST_STAGE)],
     before[Path(base, id) := Encode(sha, data)]]
  }

  /** Wherever a Put stops, it leaves a crash state. */
  lemma TraceCrashes(sha: Sha, base: string, before: Files, id: string, data: Bytes, suffix: string)
    requires TempPath(base, id, suffix) !in before && Path(base, id) !in before && |data| <= MAX_SIZE
    ensures forall t :: t in PutTrace(sha, base, before, id, data, suffix) ==> CrashState(sha, base, before, id, data, t)
  {
    hide TempPath, Path, Encode, Written;
    var temp := TempPath(base, id, suffix);
    forall k: nat ensures StrayTemp(before, temp, before[temp := Written(sha, data, k)]) {
    }
    hide StrayTemp;
  }

  /** The bytes of the write that follows write `k`. */
  function NextWrite(sha: Sha, data: Bytes, k: nat): Bytes
    requires k < LAST_STAGE
  {
    if k == 0 then sha(data) else if k == 1 then BigEndian(|data|, LENGTH_SIZE) else data
  }

  lemma WriteExtends(sha: Sha, data: Bytes, before: Files, temp: string, k: nat)
    requires k < LAST_STAGE
    ensures var now := before[temp := Written(sha, data, k)];
            now[temp := now[temp] + NextWrite(sha, data, k)] == before[temp := Written(sha, data, k + 1)]
  {
    hide BigEndian;
    assert Written(sha, data, k) + NextWrite(sha, data, k) == Written(sha, data, k + 1);
  }

  /** os.Rename within one directory tree. */
  function AfterRename(files: Files, from: string, to: string): Files
    requires from in files
  {
    if from == to then files else (files - {from})[to := files[from]]
  }

  lemma RenameResult(before: Files, temp: string, p: string, content: Bytes)
    requires temp !in before && p !in before
    ensures AfterRename(before[temp := content], temp, p) == before[p := content]
  {
    assert before[temp := content] - {temp} == before;
  }

  class DiskStore {
    const baseDir: string
    const capacityBytes: int
    const sha: Sha
    var files: Files
    var usedBytes: int

    /** New: usedBytes comes from scanning whatever is on disk, leftovers of a crash included. */
    constructor (baseDir: string, capacityBytes: int, sha: Sha, onDisk: Files)
      ensures this.baseDir == baseDir && this.capacityBytes == capacityBytes && this.sha == sha
      ensures files == onDisk && usedBytes == TotalBytes(files)
      ensures onDisk == map[] ==> usedBytes == 0
      ensures AvailableBytes() == capacityBytes - usedBytes
    {
      this.baseDir, this.capacityBytes, this.sha := baseDir, capacityBytes, sha;
      files := onDisk;
      var total := ScanUsedBytes(onDisk);
      usedBytes := total;
    }

    function AvailableBytes(): int
      reads this
    {
      capacityBytes - usedBytes
    }

    /** Create the temporary file and write checksum, length and data to it. */
    method WriteTemp(temp: string, checksum: Digest, data: Bytes) returns (ghost trace: seq<Files>)
      requires temp !in files && checksum == sha(data)
      modifies this`files
      ensures files == old(files)[temp := Written(sha, data, LAST_STAGE)]
      ensures trace == [old(files)] + seq(4, k requires 0 <= k < 4 => old(files)[temp := Written(sha, data, k)])
    {
      ghost var before := files;
      files := files[temp := []];
      trace := [before] + [files];
      WriteExtends(sha, data, before, temp, 0);
      files := files[temp := files[temp] + checksum];
      trace := trace + [files];
      WriteExtends(sha, data, before, temp, 1);
      files := files[temp := files[temp] + BigEndian(|data|, LENGTH_SIZE)];
      trace := trace + [files];
      WriteExtends(sha, data, before, temp, 2);
      files := files[temp := files[temp] + data];
      trace := trace + [files];
      hide Written, NextWrite, BigEndian;
    }

    /** `trace` lists every directory tree that exists between two file-system calls. */
    method Put(id: string, data: Bytes) returns (r: Result<(), Error>, ghost trace: seq<Files>)
      modifies this
      ensures var put := PutChunk(sha, baseDir, old(files), id, data);
              r == put.outcome && files == put.files && usedBytes == old(usedBytes) + put.added
      ensures old(usedBytes) == TotalBytes(old(files)) ==> usedBytes == TotalBytes(files)
      ensures if |data| > MAX_SIZE || Path(baseDir, id) in old(files) then trace == [old(files)]
              else exists suffix :: TempPath(baseDir, id, suffix) !in old(files)
                                    && trace == PutTrace(sha, baseDir, old(files), id, data, suffix)
      ensures forall t :: t in trace ==> CrashState(sha, baseDir, old(files), id, data, t)
      // The same in numbers and bytes. An ID without a file: refused above 16 MiB, else stored with a header of 40 bytes.
      ensures GetChunk(sha, baseDir, old(files), id) == Err(NotFound) ==>
        var path := baseDir + "/" + (if |id| <= 2 then id else id[..2] + "/" + id[2..]) + ".chunk";
        if |data| <= 16 * 1024 * 1024 then
          && r.Ok? && GetChunk(sha, baseDir, files, id) == Ok(data)
          && files == old(files)[path := sha(data) + BigEndian(|data|, 8) + data]
          && usedBytes == old(usedBytes) + 40 + |data| && AvailableBytes() == old(AvailableBytes()) - 40 - |data|
        else r == Err(InvalidArgument) && files == old(files) && usedBytes == old(usedBytes)
      // An ID with a file: nothing changes, and only a header that matches length and checksum is a success.
      ensures Path(baseDir, id) in old(files) ==>
        var file := old(files)[Path(baseDir, id)];
        && files == old(files) && usedBytes == old(usedBytes)
        && r == if |data| > 16 * 1024 * 1024 then Err(InvalidArgument)
                else if |file| >= 40 && file[..32] == sha(data) && file[32..40] == BigEndian(|data|, 8) then Ok(())
                else Err(IntegrityViolation)
      ensures forall other :: other != id ==> GetChunk(sha, baseDir, files, other) == GetChunk(sha, baseDir, old(files), other)
    {
      ghost var before := files;
      r, trace := PutSteps(id, data);
      PathIsStem(baseDir, id);
      GetMeaning(sha, baseDir, before, id);
      forall other | other != id ensures GetChunk(sha, baseDir, files, other) == GetChunk(sha, baseDir, before, other) {
        OthersRead(sha, baseDir, before, id, data, other);
      }
      if Path(baseDir, id) in before {
        PutPresent(sha, baseDir, before, id, data);
      } else {
        PutAbsent(sha, baseDir, before, id, data);
      }
      hide GetChunk, PutChunk, Path, CrashState, PutTrace, TotalBytes, TempPath;
    }

    /** The steps of Put. */
    method PutSteps(id: string, data: Bytes) returns (r: Result<(), Error>, ghost trace: seq<Files>)
      modifies this
      ensures var put := PutChunk(sha, baseDir, old(files), id, data);
              r == put.outcome && files == put.files && usedBytes == old(usedBytes) + put.added
      ensures old(usedBytes) == TotalBytes(old(files)) ==> usedBytes == TotalBytes(files)
      ensures if |data| > MAX_SIZE || Path(baseDir, id) in old(files) then trace == [old(files)]
              else exists suffix :: TempPath(baseDir, id, suffix) !in old(files)
                                    && trace == PutTrace(sha, baseDir, old(files), id, data, suffix)
      ensures forall t :: t in trace ==> CrashState(sha, baseDir, old(files), id, data, t)
    {
      trace := [files];
      var finalPath := Path(baseDir, id);
      if |data| > MAX_SIZE {
        return Err(InvalidArgument), trace;
      }
      var checksum := sha(data);
      if finalPath in files {
        var existing := files[finalPath];
        if HasHeader(existing) {
          if StoredLength(existing) == |data| && StoredChecksum(existing) == checksum {
            return Ok(()), trace;
          }
        }
        return Err(IntegrityViolation), trace;
      }
      FreshTempExists(baseDir, id, files);
      ghost var put := PutChunk(sha, baseDir, files, id, data);
      assert put == PutResult(Ok(()), files[finalPath := Encode(sha, data)], HEADER_SIZE + |data|);
      assert |Encode(sha, data)| == HEADER_SIZE + |data| && Written(sha, data, LAST_STAGE) == Encode(sha, data);
      hide Path, PutChunk, CrashState, AfterRename, TempPath, TotalBytes, Encode, Written;
      var suffix :| TempPath(baseDir, id, suffix) !in files;
      var temp := TempPath(baseDir, id, suffix);
      ghost var before := files;
      trace := WriteTemp(temp, checksum, data);
      RenameResult(before, temp, finalPath, Encode(sha, data));
      files := AfterRename(files, temp, finalPath);
      trace := trace + [files];
      usedBytes := usedBytes + HEADER_SIZE + |data|;
      assert trace == PutTrace(sha, baseDir, before, id, data, suffix);
      TraceCrashes(sha, baseDir, before, id, data, suffix);
      TotalAdd(before, finalPath, Encode(sha, data));
      r := Ok(());
    }

    method Get(id: string) returns (r: Result<VerifiedReader, Error>)
      ensures r.Err? <==> Path(baseDir, id) !in files || !HasHeader(files[Path(baseDir, id)])
      ensures r.Err? ==> r.error == if Path(baseDir, id) in files then IntegrityViolation else NotFound
      ensures r.Ok? ==> fresh(r.value) && r.value.Valid() && r.value.readBytes == 0 && !r.value.closed
                        && r.value.sha == sha && r.value.file == files[Path(baseDir, id)]
    {
      var path := Path(baseDir, id);
      if path !in files {
        return Err(NotFound);
      }
      if !HasHeader(files[path]) {
        return Err(IntegrityViolation);
      }
      var reader := new VerifiedReader(sha, files[path]);
      r := Ok(reader);
    }

    /** Get and read to the end, as the storage server's GetChunk does. */
    method GetAll(id: string) returns (r: Result<Bytes, Error>)
      ensures r == GetChunk(sha, baseDir, files, id)
      ensures r == Err(NotFound) <==> Path(baseDir, id) !in files
      ensures forall d: Bytes {:trigger sha(d)} :: |d| < 0x1_0000_0000_0000_0000 ==>
        (r == Ok(d) <==> Path(baseDir, id) in files && files[Path(baseDir, id)] == sha(d) + BigEndian(|d|, 8) + d)
    {
      GetMeaning(sha, baseDir, files, id);
      var stream := Get(id);
      if stream.Err? {
        return Err(stream.error);
      }
      r := stream.value.ReadAll();
    }

    /** Stat, remove, subtract. Deleting an absent chunk succeeds and changes nothing. */
    method Delete(id: string)
      modifies this
      ensures files == DeleteChunk(baseDir, old(files), id)
      ensures files == old(files) - {Path(baseDir, id)} && GetChunk(sha, baseDir, files, id) == Err(NotFound)
      ensures forall other :: other != id ==> GetChunk(sha, baseDir, files, other) == GetChunk(sha, baseDir, old(files), other)
      ensures usedBytes == old(usedBytes) - if Path(baseDir, id) in old(files) then |old(files)[Path(baseDir, id)]| else 0
      ensures old(usedBytes) == TotalBytes(old(files)) ==> usedBytes == TotalBytes(files)
    {
      forall other | other != id
        ensures GetChunk(sha, baseDir, DeleteChunk(baseDir, files, id), other) == GetChunk(sha, baseDir, files, other)
      {
        OthersRead(sha, baseDir, files, id, [], other);
      }
      var path := Path(baseDir, id);
      if path !in files {
        assert files == DeleteChunk(baseDir, files, id);
        return;
      }
      var fileSize := |files[path]|;
      TotalDelete(files, path);
      files := files - {path};
      usedBytes := usedBytes - fileSize;
    }
  }

  /** filepath.Walk in any order. */
  method ScanUsedBytes(files: Files) returns (total: int)
    ensures total == TotalBytes(files)
    ensures files == map[] ==> total == 0
  {
    TotalMeaning("", []);
    total := 0;
    var rest := files.Keys;
    while rest != {}
      invariant rest <= files.Keys
      invariant total + TotalOf(files, rest) == TotalBytes(files)
      decreases |rest|
    {
      var p :| p in rest;
      TotalRemove(files, rest, p);
      total := total + |files[p]|;
      rest := rest - {p};
    }
  }

  // ---- Temporary names ----

  function Zeros(n: nat): string {
    seq(n, _ => '0')
  }

  lemma {:induction false} LongerThanAll(keys: set<string>) returns (n: nat)
    ensures forall k :: k in keys ==> |k| < n
    decreases |keys|
  {
    if keys == {} {
      n := 0;
    } else {
      var k :| k in keys;
      var m := LongerThanAll(keys - {k});
      n := m + |k| + 1;
    }
  }

  lemma FreshTempExists(base: string, id: string, files: Files)
    ensures exists suffix :: TempPath(base, id, suffix) !in files
  {
    var n := LongerThanAll(files.Keys);
    var p := TempPath(base, id, Zeros(n));
    assert |p| >= n;
    assert p !in files;
  }
}
