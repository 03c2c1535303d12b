/** A committed file can be read back: chunk plan, replica rows and replica agreement together. */
module FileReadBack {
  import opened Prelude
  import opened Tables
  import opened ChunkPlan
  import opened ControlPlane
  import opened ControlPlaneTheorems
  import opened ControlPlanePlans
  import opened ReplicaAgreement
  import ChunkFile
  import CopyChunk

  function SizesOf(q: seq<ChunkRow>): seq<int> {
    seq(|q|, k requires 0 <= k < |q| => q[k].chunk.size)
  }

  ghost predicate AddUp(q: seq<ChunkRow>, content: ChunkFile.Bytes) {
    (forall k :: 0 <= k < |q| ==> 0 <= SizesOf(q)[k]) && Sum(SizesOf(q)) == |content|
  }

  /** Each listed replica of each chunk serves its piece of `content`. */
  ghost predicate Holds(c: Config, s: State, q: seq<ChunkRow>, content: ChunkFile.Bytes)
    requires AddUp(q, content)
  {
    && |Split(content, SizesOf(q))| == |q|
    && forall k :: 0 <= k < |q| ==> Agree(c, s, q[k].id, Split(content, SizesOf(q))[k])
  }

  /** The chunks were read one by one, each from some node listed for it. */
  ghost predicate ReadFrom(c: Config, s: State, q: seq<ChunkRow>, fetched: seq<ChunkFile.Bytes>) {
    && |fetched| == |q|
    && forall k :: 0 <= k < |q| ==> PieceRead(c, s, q[k].id, fetched[k])
  }

  ghost predicate PieceRead(c: Config, s: State, x: string, data: ChunkFile.Bytes) {
    exists n :: n in Replicas(s.db, x) && Serves(c, s, n, x, data)
  }

  /** For each chunk of the file, the run is fair. */
  ghost predicate FairRuns(c: Config, states: seq<State>, steps: seq<Step>, q: seq<ChunkRow>,
    payloads: seq<set<ChunkFile.Bytes>>, since: nat)
  {
    |payloads| == |q| && forall k :: 0 <= k < |q| ==> FairRun(c, states, steps, q[k].id, payloads[k], since)
  }

  /** The listing of a file never changes. */
  lemma ListingStays(c: Config, states: seq<State>, steps: seq<Step>, i: nat, j: nat, f: string, q: seq<ChunkRow>, q': seq<ChunkRow>)
    requires IsRunFromInit(c, states, steps) && i <= j < |states| && f in states[i].db.files
    requires IsChunkListing(states[i].db, f, q) && IsChunkListing(states[j].db, f, q')
    ensures q' == q
  {
    GrowsOverRun(c, states, steps, i, j);
    StoredPlan(c, states, steps, i, f);
    assert f in states[j].db.files;
    StoredPlan(c, states, steps, j, f);
    assert states[j].history.layout[f] == states[i].history.layout[f];
    hide IsRunFromInit, IsPlanFor, OnlyGrows, HoldsRows, IsChunkListing;
    ListingIsRows(states[i].db, f, states[i].history.layout[f], q);
    ListingIsRows(states[j].db, f, states[j].history.layout[f], q');
  }

  lemma PartitionAddsUp(q: seq<ChunkRow>, content: ChunkFile.Bytes, chunkSize: int)
    requires IsPartition(SizesOf(q), |content|, chunkSize)
    ensures AddUp(q, content)
  {
    hide Sum;
  }

  /** The sizes of a committed file's chunks add up to its size. */
  lemma CommittedAddsUp(c: Config, states: seq<State>, steps: seq<Step>, i: nat, f: string, q: seq<ChunkRow>, content: ChunkFile.Bytes)
    requires IsRunFromInit(c, states, steps) && i < |states| && f in states[i].db.files
    requires states[i].db.files[f].status == Committed
    requires IsChunkListing(states[i].db, f, q) && |content| == states[i].db.files[f].size
    ensures AddUp(q, content) && Join(Split(content, SizesOf(q))) == content
  {
    ChunksPartitionFile(c, states, steps, i, f, q, content);
    hide IsRunFromInit, IsChunkListing, IsPartition, Join, Split, Plannable;
    PartitionAddsUp(q, content, c.chunkSize);
  }

  lemma ChunkIsCommitted(s: State, f: string, q: seq<ChunkRow>, k: nat)
    requires IsChunkListing(s.db, f, q) && k < |q| && f in s.db.files && s.db.files[f].status == Committed
    ensures q[k].id in s.db.chunks && s.db.chunks[q[k].id].fileId == f && q[k].id in ChunkIds(s.db, f)
  {
  }

  lemma PieceStays(c: Config, states: seq<State>, steps: seq<Step>, i: nat, j: nat, f: string, q: seq<ChunkRow>,
    payloads: seq<set<ChunkFile.Bytes>>, since: nat, k: nat, piece: ChunkFile.Bytes)
    requires FairRuns(c, states, steps, q, payloads, since) && since <= i <= j < |states|
    requires f in states[i].db.files && states[i].db.files[f].status == Committed && IsChunkListing(states[i].db, f, q)
    requires k < |q| && Agree(c, states[i], q[k].id, piece)
    ensures Agree(c, states[j], q[k].id, piece)
  {
    ChunkIsCommitted(states[i], f, q, k);
    assert FairRun(c, states, steps, q[k].id, payloads[k], since);
    hide FairRuns, FairRun, Agree, IsChunkListing;
    AgreementOverRun(c, states, steps, q[k].id, payloads[k], since, piece, i, j);
  }

  lemma {:induction false} ReadsAreJoined(fetched: seq<ChunkFile.Bytes>, pieces: seq<ChunkFile.Bytes>)
    requires |fetched| == |pieces| && forall k :: 0 <= k < |pieces| ==> fetched[k] == pieces[k]
    ensures Join(fetched) == Join(pieces)
  {
    assert fetched == pieces;
  }

  /** A file committed in state `i`, with all listed replicas of its chunks serving their pieces of `content`: in every
      later state the file has the same chunks, and whoever reads them in order, each from any node listed for it then,
      and joins what was read has `content`. Every listed node can be read, and with R > 0 there is one. */
  lemma CommittedFileReadsBack(c: Config, states: seq<State>, steps: seq<Step>, i: nat, j: nat, f: string, q: seq<ChunkRow>,
    payloads: seq<set<ChunkFile.Bytes>>, since: nat, content: ChunkFile.Bytes, q': seq<ChunkRow>, fetched: seq<ChunkFile.Bytes>)
    requires IsRunFromInit(c, states, steps) && FairRuns(c, states, steps, q, payloads, since) && since <= i <= j < |states|
    requires f in states[i].db.files && states[i].db.files[f].status == Committed && IsChunkListing(states[i].db, f, q)
    requires |content| == states[i].db.files[f].size && AddUp(q, content) && Holds(c, states[i], q, content)
    requires IsChunkListing(states[j].db, f, q') && ReadFrom(c, states[j], q', fetched)
    ensures q' == q && Holds(c, states[j], q, content)
    ensures Join(fetched) == content && fetched == Split(content, SizesOf(q))
  {
    var pieces := Split(content, SizesOf(q));
    hide FairRun, Agree, Split, Join, IsChunkListing, SizesOf, AddUp, IsRunFromInit, PieceRead;
    ListingStays(c, states, steps, i, j, f, q, q');
    CommittedAddsUp(c, states, steps, i, f, q, content);
    forall k | 0 <= k < |q| ensures Agree(c, states[j], q[k].id, pieces[k]) && fetched[k] == pieces[k] {
      PieceStays(c, states, steps, i, j, f, q, payloads, since, k, pieces[k]);
      assert PieceRead(c, states[j], q'[k].id, fetched[k]);
      ReadIsPiece(c, states[j], q[k].id, fetched[k], pieces[k]);
    }
    ReadsAreJoined(fetched, pieces);
  }

  lemma ReadIsPiece(c: Config, s: State, x: string, data: ChunkFile.Bytes, piece: ChunkFile.Bytes)
    requires Agree(c, s, x, piece) && PieceRead(c, s, x, data)
    ensures data == piece
  {
    var n :| n in Replicas(s.db, x) && Serves(c, s, n, x, data);
    assert Serves(c, s, n, x, piece);
    hide Replicas, CopyChunk.Read;
  }

  /** The read can always be done: such a sequence of reads exists in every later state. */
  lemma ReadsExist(c: Config, states: seq<State>, steps: seq<Step>, i: nat, j: nat, f: string, q: seq<ChunkRow>,
    payloads: seq<set<ChunkFile.Bytes>>, since: nat, content: ChunkFile.Bytes)
    requires IsRunFromInit(c, states, steps) && FairRuns(c, states, steps, q, payloads, since) && since <= i <= j < |states|
    requires f in states[i].db.files && states[i].db.files[f].status == Committed && IsChunkListing(states[i].db, f, q)
    requires AddUp(q, content) && Holds(c, states[i], q, content) && c.r > 0
    ensures ReadFrom(c, states[j], q, Split(content, SizesOf(q)))
  {
    CommittedFilesAreReplicated(c, states, steps, i, f);
    GrowsOverRun(c, states, steps, i, j);
    var pieces := Split(content, SizesOf(q));
    hide FairRun, Agree, Split, SizesOf, AddUp, IsRunFromInit, PieceRead, OnlyGrows, IsChunkListing;
    forall k | 0 <= k < |q| ensures PieceRead(c, states[j], q[k].id, pieces[k]) {
      PieceStays(c, states, steps, i, j, f, q, payloads, since, k, pieces[k]);
      ChunkIsCommitted(states[i], f, q, k);
      ReplicaStays(states[i], states[j], q[k].id);
      AnyReplicaReads(c, states[j], q[k].id, pieces[k]);
    }
  }

  lemma ReplicaStays(s: State, s': State, x: string)
    requires OnlyGrows(s, s')
    ensures Replicas(s.db, x) <= Replicas(s'.db, x)
    ensures Replicas(s.db, x) != {} ==> Replicas(s'.db, x) != {}
  {
    hide FilesAdvance, HistoryGrows;
  }

  lemma AnyReplicaReads(c: Config, s: State, x: string, piece: ChunkFile.Bytes)
    requires Agree(c, s, x, piece) && Replicas(s.db, x) != {}
    ensures PieceRead(c, s, x, piece)
  {
    var n :| n in Replicas(s.db, x);
    hide Replicas, CopyChunk.Read;
  }
}
