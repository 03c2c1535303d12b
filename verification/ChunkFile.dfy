/** Chunk files: a 32-byte checksum, an 8-byte big-endian length, then the payload. */
module ChunkFile {
  import opened Prelude

  newtype byte = x: int | 0 <= x < 256
  type Bytes = seq<byte>
  type Digest = d: Bytes | |d| == 32 witness seq(32, _ => 0)

  /** SHA-256 is an arbitrary function to 32-byte digests. */
  type Sha = Bytes -> Digest

  /** A directory tree: file paths to contents. */
  type Files = map<string, Bytes>

  const CHECKSUM_SIZE := 32
  const LENGTH_SIZE := 8
  const HEADER_SIZE := CHECKSUM_SIZE + LENGTH_SIZE
  const MAX_SIZE := 16 * 1024 * 1024

  datatype Error = NotFound | InvalidArgument | IntegrityViolation

  /** Different payloads with one digest. */
  predicate Collide(sha: Sha, a: Bytes, b: Bytes) {
    a != b && sha(a) == sha(b)
  }

  /** No collision among these payloads. */
  ghost predicate Separates(sha: Sha, payloads: set<Bytes>) {
    forall a, b :: a in payloads && b in payloads ==> !Collide(sha, a, b)
  }

  // ---- Big-endian integers ----

  function Pow256(k: nat): (p: nat)
    ensures p > 0
  {
    if k == 0 then 1 else 256 * Pow256(k - 1)
  }

  function BigEndian(n: nat, k: nat): (b: Bytes)
    ensures |b| == k
  {
    if k == 0 then [] else BigEndian(n / 256, k - 1) + [(n % 256) as byte]
  }

  function FromBigEndian(b: Bytes): nat {
    if b == [] then 0 else 256 * FromBigEndian(b[..|b| - 1]) + b[|b| - 1] as nat
  }

  lemma {:induction false} BigEndianDecodes(n: nat, k: nat)
    requires n < Pow256(k)
    ensures FromBigEndian(BigEndian(n, k)) == n
  {
    if k > 0 {
      BigEndianDecodes(n / 256, k - 1);
      var b := BigEndian(n, k);
      assert b[..k - 1] == BigEndian(n / 256, k - 1);
    }
  }

  lemma {:induction false} BigEndianEncodes(b: Bytes)
    ensures FromBigEndian(b) < Pow256(|b|)
    ensures BigEndian(FromBigEndian(b), |b|) == b
  {
    if b != [] {
      var front, last := b[..|b| - 1], b[|b| - 1];
      BigEndianEncodes(front);
      var n := FromBigEndian(b);
      assert n / 256 == FromBigEndian(front) && n % 256 == last as nat;
      assert b == front + [last];
    }
  }

  /** The most significant byte comes first. */
  lemma {:induction false} BigEndianAt(n: nat, k: nat, i: nat)
    requires i < k
    ensures BigEndian(n, k)[i] as int == (n / Pow256(k - 1 - i)) % 256
  {
    if i < k - 1 {
      BigEndianAt(n / 256, k - 1, i);
      QuotientOfQuotient(n, Pow256(k - 2 - i));
    }
  }

  lemma QuotientOfQuotient(n: nat, d: nat)
    requires d > 0
    ensures 256 * d > 0 && n / 256 / d == n / (256 * d)
  {
    var q, r := n / 256 / d, n / 256 % d;
    assert n / 256 == q * d + r;
    assert n == 256 * (q * d + r) + n % 256;
    assert n == (256 * d) * q + (256 * r + n % 256);
    QuotientUnique(n, 256 * d, q, 256 * r + n % 256);
  }

  lemma QuotientUnique(n: nat, d: nat, q: nat, r: nat)
    requires d > 0 && n == d * q + r && r < d
    ensures n / d == q
  {
    assert n == d * (n / d) + n % d;
    assert d * (n / d - q) == r - n % d;
    Multiples(d, n / d - q);
  }

  lemma Multiples(d: nat, e: int)
    requires d > 0
    ensures (e >= 1 ==> d * e >= d) && (e <= -1 ==> d * e <= 0 - d)
  {
  }

  lemma PowersOf256()
    ensures Pow256(0) == 1 && Pow256(1) == 0x100 && Pow256(2) == 0x1_0000 && Pow256(3) == 0x100_0000
    ensures Pow256(4) == 0x1_0000_0000 && Pow256(5) == 0x100_0000_0000 && Pow256(6) == 0x1_0000_0000_0000
    ensures Pow256(7) == 0x100_0000_0000_0000 && Pow256(8) == 0x1_0000_0000_0000_0000
  {
    assert Pow256(4) == 0x1_0000_0000;
    assert Pow256(6) == 256 * Pow256(5);
    assert Pow256(8) == 256 * Pow256(7);
  }

  // ---- File format ----

  function Encode(sha: Sha, data: Bytes): Bytes {
    sha(data) + BigEndian(|data|, LENGTH_SIZE) + data
  }

  predicate HasHeader(file: Bytes) {
    |file| >= HEADER_SIZE
  }

  function StoredChecksum(file: Bytes): Bytes
    requires HasHeader(file)
  {
    file[..CHECKSUM_SIZE]
  }

  function StoredLength(file: Bytes): nat
    requires HasHeader(file)
  {
    FromBigEndian(file[CHECKSUM_SIZE..HEADER_SIZE])
  }

  function Payload(file: Bytes): Bytes
    requires HasHeader(file)
  {
    file[HEADER_SIZE..]
  }

  /** The header describes the payload. */
  predicate Intact(sha: Sha, file: Bytes) {
    HasHeader(file) && StoredLength(file) == |Payload(file)| && StoredChecksum(file) == sha(Payload(file))
  }

  /** Put's idempotency check: it looks at the header only. */
  predicate HeaderMatches(sha: Sha, file: Bytes, data: Bytes) {
    HasHeader(file) && StoredLength(file) == |data| && StoredChecksum(file) == sha(data)
  }

  lemma EncodeLayout(sha: Sha, data: Bytes)
    requires |data| < Pow256(LENGTH_SIZE)
    ensures HasHeader(Encode(sha, data))
    ensures StoredChecksum(Encode(sha, data)) == sha(data)
    ensures StoredLength(Encode(sha, data)) == |data|
    ensures Payload(Encode(sha, data)) == data
  {
    var file := Encode(sha, data);
    BigEndianDecodes(|data|, LENGTH_SIZE);
    assert file[..CHECKSUM_SIZE] == sha(data);
    assert file[CHECKSUM_SIZE..HEADER_SIZE] == BigEndian(|data|, LENGTH_SIZE);
    assert file[HEADER_SIZE..] == data;
  }

  /** A file reads back as `data` exactly when it is the encoding of `data`. */
  lemma IntactIffEncoded(sha: Sha, file: Bytes, data: Bytes)
    requires |data| < Pow256(LENGTH_SIZE)
    ensures Intact(sha, file) && Payload(file) == data <==> file == Encode(sha, data)
  {
    EncodeLayout(sha, data);
    if Intact(sha, file) && Payload(file) == data {
      BigEndianEncodes(file[CHECKSUM_SIZE..HEADER_SIZE]);
      assert file == file[..CHECKSUM_SIZE] + file[CHECKSUM_SIZE..HEADER_SIZE] + file[HEADER_SIZE..];
    }
  }

  lemma MaxSizeFits()
    ensures MAX_SIZE < Pow256(LENGTH_SIZE)
  {
    assert Pow256(4) == 0x1_0000_0000;
    assert Pow256(8) >= Pow256(4);
  }

  /** Put fills the temporary file in three writes. */
  const LAST_STAGE := 3

  /** The temporary file after `stage` writes: checksum, length, payload. */
  function Written(sha: Sha, data: Bytes, stage: nat): Bytes {
    if stage == 0 then []
    else if stage == 1 then sha(data)
    else if stage == 2 then sha(data) + BigEndian(|data|, LENGTH_SIZE)
    else Encode(sha, data)
  }

  // ---- Paths ----

  function Dir(base: string, id: string): string {
    if |id| <= 2 then base else base + "/" + id[..2]
  }

  function Path(base: string, id: string): string {
    if |id| <= 2 then base + "/" + id + ".chunk"
    else Dir(base, id) + "/" + id[2..] + ".chunk"
  }

  /** A name os.CreateTemp(dir, "tmp-*.chunk") may pick. */
  function TempPath(base: string, id: string, suffix: string): string {
    Dir(base, id) + "/tmp-" + suffix + ".chunk"
  }

  /** IDs over digits and capital letters, as ULIDs are. */
  predicate PlainId(id: string) {
    forall i :: 0 <= i < |id| ==> '0' <= id[i] <= '9' || 'A' <= id[i] <= 'Z'
  }

  /** The part of a path between the base directory and the extension. */
  function Stem(id: string): string {
    if |id| <= 2 then id else id[..2] + "/" + id[2..]
  }

  lemma PathIsStem(base: string, id: string)
    ensures Path(base, id) == base + "/" + Stem(id) + ".chunk"
  {
  }

  lemma AffixCancels(base: string, s: string, t: string)
    requires base + "/" + s + ".chunk" == base + "/" + t + ".chunk"
    ensures s == t
  {
    var p := base + "/" + s + ".chunk";
    var k := |base| + 1;
    assert |s| == |t|;
    assert p[k..k + |s|] == s;
    assert p[k..k + |t|] == t;
  }

  /** Sharding never sends two IDs to one file. */
  lemma PathInjective(base: string, a: string, b: string)
    requires Path(base, a) == Path(base, b)
    ensures a == b
  {
    PathIsStem(base, a);
    PathIsStem(base, b);
    AffixCancels(base, Stem(a), Stem(b));
    var s, t := Stem(a), Stem(b);
    if |a| > 2 {
      assert |b| > 2;
      assert s[..2] == a[..2] && s[3..] == a[2..];
      assert t[..2] == b[..2] && t[3..] == b[2..];
      assert a == a[..2] + a[2..] && b == b[..2] + b[2..];
    } else {
      assert |b| <= 2;
    }
  }

  /** The temporary file is created beside the chunk's file, so that the rename stays within one directory. */
  lemma TempBeside(base: string, id: string, suffix: string)
    ensures exists dir, name ::
      && TempPath(base, id, suffix) == dir + "/" + ("tmp-" + suffix + ".chunk") && Path(base, id) == dir + "/" + name
      && forall i :: 0 <= i < |name| && name[i] == '/' ==> exists j :: 0 <= j < |id| && id[j] == '/'
  {
    var dir, rest := Dir(base, id), if |id| <= 2 then id else id[2..];
    var name := rest + ".chunk";
    assert TempPath(base, id, suffix) == dir + "/" + ("tmp-" + suffix + ".chunk");
    assert Path(base, id) == dir + "/" + name;
    forall i | 0 <= i < |name| && name[i] == '/' ensures exists j :: 0 <= j < |id| && id[j] == '/' {
      assert rest[i] == '/';
      assert id[if |id| <= 2 then i else i + 2] == '/';
    }
  }

  /** No temporary file is ever the file of a plain ID. */
  lemma TempIsNoChunk(base: string, id: string, suffix: string, other: string)
    requires PlainId(other)
    ensures TempPath(base, id, suffix) != Path(base, other)
  {
    var tail := "tmp-" + suffix;
    var s := if |id| <= 2 then tail else id[..2] + "/" + tail;
    assert TempPath(base, id, suffix) == base + "/" + s + ".chunk";
    var dash := if |id| <= 2 then 3 else 6;
    assert s[dash] == '-';
    PathIsStem(base, other);
    if TempPath(base, id, suffix) == Path(base, other) {
      AffixCancels(base, s, Stem(other));
    }
  }

  // ---- What Get, Put and Delete do to the directory tree ----

  /** Opening a chunk and reading its verified stream to the end. */
  function GetChunk(sha: Sha, base: string, files: Files, id: string): Result<Bytes, Error> {
    if Path(base, id) !in files then Err(NotFound)
    else
      var file := files[Path(base, id)];
      if Intact(sha, file) then Ok(Payload(file)) else Err(IntegrityViolation)
  }

  datatype PutResult = PutResult(outcome: Result<(), Error>, files: Files, added: int)

  function PutChunk(sha: Sha, base: string, files: Files, id: string, data: Bytes): PutResult {
    var p := Path(base, id);
    if |data| > MAX_SIZE then PutResult(Err(InvalidArgument), files, 0)
    else if p in files then
      PutResult(if HeaderMatches(sha, files[p], data) then Ok(()) else Err(IntegrityViolation), files, 0)
    else PutResult(Ok(()), files[p := Encode(sha, data)], HEADER_SIZE + |data|)
  }

  /** The rename of a Put that found the chunk absent, after another Put of it has finished: nothing is checked again. */
  function OverwriteChunk(sha: Sha, base: string, files: Files, id: string, data: Bytes): Files {
    files[Path(base, id) := Encode(sha, data)]
  }

  function DeleteChunk(base: string, files: Files, id: string): Files {
    files - {Path(base, id)}
  }

  /** Put on an ID without a file: the size limit, and the exact file made of 32 bytes of checksum, 8 of length and the data. */
  lemma PutAbsent(sha: Sha, base: string, files: Files, id: string, data: Bytes)
    requires Path(base, id) !in files
    ensures var put := PutChunk(sha, base, files, id, data);
      && (|data| > 16777216 ==> put == PutResult(Err(InvalidArgument), files, 0))
      && (|data| <= 16777216 ==>
            && put.outcome.Ok? && put.added == 40 + |data| == |sha(data) + BigEndian(|data|, 8) + data|
            && put.files == files[Path(base, id) := sha(data) + BigEndian(|data|, 8) + data]
            && GetChunk(sha, base, put.files, id) == Ok(data))
  {
    if |data| <= 16777216 {
      MaxSizeFits();
      IntactIffEncoded(sha, Encode(sha, data), data);
    }
  }

  /** Put on an ID with a file never changes it, and succeeds exactly if its first 40 bytes are those of a file for the data. */
  lemma PutPresent(sha: Sha, base: string, files: Files, id: string, data: Bytes)
    requires Path(base, id) in files
    ensures var (put, file) := (PutChunk(sha, base, files, id, data), files[Path(base, id)]);
      && put.files == files && put.added == 0
      && put.outcome == if |data| > 16777216 then Err(InvalidArgument)
           else if |file| >= 40 && file[..32] == sha(data) && file[32..40] == BigEndian(|data|, 8) then Ok(())
           else Err(IntegrityViolation)
  {
    if |files[Path(base, id)]| >= 40 && |data| <= 16777216 {
      MaxSizeFits();
      BigEndianDecodes(|data|, 8);
      BigEndianEncodes(files[Path(base, id)][32..40]);
    }
  }

  lemma OthersRead(sha: Sha, base: string, files: Files, id: string, data: Bytes, other: string)
    requires other != id
    ensures GetChunk(sha, base, PutChunk(sha, base, files, id, data).files, other) == GetChunk(sha, base, files, other)
    ensures GetChunk(sha, base, DeleteChunk(base, files, id), other) == GetChunk(sha, base, files, other)
  {
    if Path(base, other) == Path(base, id) {
      PathInjective(base, other, id);
    }
    hide Path, Encode, Intact, HeaderMatches;
  }

  /** Reading succeeds exactly on a file of this format, and then yields the data after its first 40 bytes. */
  lemma GetMeaning(sha: Sha, base: string, files: Files, id: string)
    ensures GetChunk(sha, base, files, id) == Err(NotFound) <==> Path(base, id) !in files
    ensures forall d: Bytes {:trigger GetChunk(sha, base, files, id) == Ok(d)} :: |d| < 0x1_0000_0000_0000_0000 ==>
      (GetChunk(sha, base, files, id) == Ok(d) <==>
         Path(base, id) in files && files[Path(base, id)] == sha(d) + BigEndian(|d|, 8) + d)
  {
    PowersOf256();
    forall d: Bytes | |d| < 0x1_0000_0000_0000_0000
      ensures GetChunk(sha, base, files, id) == Ok(d) <==>
        Path(base, id) in files && files[Path(base, id)] == sha(d) + BigEndian(|d|, 8) + d
    {
      if Path(base, id) in files {
        IntactIffEncoded(sha, files[Path(base, id)], d);
        hide Pow256, BigEndian, Intact;
      }
    }
  }

  // ---- Disk usage ----

  ghost function TotalOf(files: Files, keys: set<string>): int
    requires keys <= files.Keys
  {
    if keys == {} then 0
    else var k :| k in keys; |files[k]| + TotalOf(files, keys - {k})
  }

  /** The sum a directory walk computes. */
  ghost function TotalBytes(files: Files): int {
    TotalOf(files, files.Keys)
  }

  lemma {:induction false} TotalRemove(files: Files, keys: set<string>, k: string)
    requires keys <= files.Keys && k in keys
    ensures TotalOf(files, keys) == |files[k]| + TotalOf(files, keys - {k})
    decreases |keys|
  {
    var j :| j in keys && TotalOf(files, keys) == |files[j]| + TotalOf(files, keys - {j});
    if j != k {
      TotalRemove(files, keys - {j}, k);
      TotalRemove(files, keys - {k}, j);
      assert keys - {j} - {k} == keys - {k} - {j};
    }
  }

  lemma {:induction false} TotalFrame(a: Files, b: Files, keys: set<string>)
    requires keys <= a.Keys && keys <= b.Keys && forall k :: k in keys ==> a[k] == b[k]
    ensures TotalOf(a, keys) == TotalOf(b, keys)
    decreases |keys|
  {
    if keys != {} {
      var k :| k in keys;
      TotalRemove(a, keys, k);
      TotalRemove(b, keys, k);
      TotalFrame(a, b, keys - {k});
    }
  }

  /** An empty tree has no bytes, and one file has its own length. */
  lemma TotalMeaning(p: string, content: Bytes)
    ensures TotalBytes(map[]) == 0 && TotalBytes(map[p := content]) == |content|
  {
    var one: Files := map[p := content];
    TotalRemove(one, one.Keys, p);
    assert one.Keys - {p} == {};
  }

  lemma TotalAdd(files: Files, p: string, content: Bytes)
    requires p !in files
    ensures TotalBytes(files[p := content]) == TotalBytes(files) + |content|
  {
    var after := files[p := content];
    TotalRemove(after, after.Keys, p);
    assert after.Keys - {p} == files.Keys;
    TotalFrame(files, after, files.Keys);
  }

  lemma TotalDelete(files: Files, p: string)
    requires p in files
    ensures TotalBytes(files - {p}) == TotalBytes(files) - |files[p]|
  {
    var after := files - {p};
    TotalRemove(files, files.Keys, p);
    assert after.Keys == files.Keys - {p};
    TotalFrame(files, after, after.Keys);
  }
}
