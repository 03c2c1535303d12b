/** Plans over whole runs: stored chunks partition their file, and a prepared upload can be committed. */
module ControlPlanePlans {
  import opened Prelude
  import opened Tables
  import opened ChunkPlan
  import opened FileLifecycle
  import opened ControlPlane
  import opened ControlPlaneSafety
  import opened ControlPlaneTheorems
  import Registry

  // ---- A property of planned rows holds of all stored rows ----

  type RowsProperty = (string, int, seq<ChunkRow>) -> bool
  type SizeProperty = int -> bool

  ghost predicate AllFiles(s: State, p: RowsProperty) {
    forall f :: f in s.db.files && f in s.history.layout ==> p(f, s.db.files[f].size, s.history.layout[f])
  }

  ghost predicate AllPlacing(s: State, z: SizeProperty) {
    forall t :: t in s.clients && s.clients[t].Placing? ==> z(s.clients[t].size)
  }

  /** No file was added, and none changed its size or rows. */
  ghost predicate SameFiles(s: State, s': State) {
    && s'.db.files.Keys == s.db.files.Keys
    && s'.history.layout == s.history.layout
    && forall f :: f in s.db.files ==> s'.db.files[f].size == s.db.files[f].size
  }

  lemma CommitSameFiles(c: Config, s: State, q: string, m: map<string, seq<string>>)
    ensures SameFiles(s, ApplyCommit(c, s, q, m)) && ApplyCommit(c, s, q, m).clients == s.clients
  {
    hide Covers, RowsOf, ChunkIds;
  }

  lemma ClientSameFiles(c: Config, s: State, step: ClientStep)
    requires ClientEnabled(c, s, step) && !step.PrepareWrite?
    ensures SameFiles(s, ApplyClient(c, s, step))
    ensures forall t :: t in ApplyClient(c, s, step).clients && ApplyClient(c, s, step).clients[t].Placing? ==>
      (t in s.clients && s.clients[t].Placing? && ApplyClient(c, s, step).clients[t].size == s.clients[t].size)
      || (step.PrepareList? && ApplyClient(c, s, step).clients[t].size == step.size)
  {
    hide ChunkCount, Lists, HealthyRows, ApplyCommit;
    if step.Commit? {
      hide SameFiles;
      CommitSameFiles(c, s, step.sessionId, step.replicaMap);
    }
  }

  lemma RecordSameFiles(c: Config, s: State)
    requires ScanEnabled(s, ScanRecord)
    ensures SameFiles(s, ApplyTransfer(c, s, ScanRecord)) && ApplyTransfer(c, s, ScanRecord).clients == s.clients
  {
  }

  lemma ReadsSameFiles(s: State, s': State)
    requires ReadsOnly(s, s')
    ensures SameFiles(s, s') && s'.clients == s.clients
  {
    hide ScannerSound, Conserved;
  }

  lemma ScanSameFiles(c: Config, s: State, step: ScanStep)
    requires Sound(c, s) && ScanEnabled(s, step)
    ensures SameFiles(s, ApplyScan(c, s, step)) && ApplyScan(c, s, step).clients == s.clients
  {
    hide Sound, ScanEnabled, ApplyTransfer, ReadsOnly, SameFiles;
    if step.ScanRecord? {
      RecordSameFiles(c, s);
    } else {
      ScanOnlyReads(c, s, step);
      hide ApplyScan;
      ReadsSameFiles(s, ApplyScan(c, s, step));
    }
  }

  lemma OtherSameFiles(c: Config, s: State, step: Step)
    requires Sound(c, s) && Enabled(c, s, step) && !step.ByClient?
    ensures SameFiles(s, Apply(c, s, step))
    ensures Apply(c, s, step).clients == s.clients || Apply(c, s, step).clients == map[]
  {
    hide Sound, Registry.Verdict, ApplyScan, ScanEnabled, Lists;
    if step.ByScanner? {
      ScanSameFiles(c, s, step.scan);
    }
  }

  lemma PrepareAddsFile(c: Config, s: State, step: ClientStep, rows: seq<ChunkRow>, p: RowsProperty, z: SizeProperty)
    requires step.PrepareWrite? && step.client in s.clients && s.clients[step.client].Placing?
    requires ForeignKeysHold(s.db)
    requires forall i :: 0 <= i < |rows| ==> rows[i].chunk.fileId == step.fileId && rows[i].chunk.index == i
    requires AllFiles(s, p) && AllPlacing(s, z) && p(step.fileId, s.clients[step.client].size, rows)
    ensures AllFiles(ApplyPrepare(s, step, rows), p) && AllPlacing(ApplyPrepare(s, step, rows), z)
  {
    var k := s.clients[step.client];
    PrepareExact(s.db, step.fileId, step.sessionId, k.name, k.size, rows);
    hide ForeignKeysHold, Numbered, HoldsRows, RowIds, PrepareRows;
  }

  /** If planning gives rows with property `p` for every size with property `z`, all stored rows have `p`. */
  lemma PropertyStep(c: Config, s: State, step: Step, p: RowsProperty, z: SizeProperty)
    requires Sound(c, s) && Enabled(c, s, step) && AllFiles(s, p) && AllPlacing(s, z)
    requires step.ByClient? && step.client.PrepareList? ==> z(step.client.size)
    requires step.ByClient? && step.client.PrepareWrite? && z(s.clients[step.client.client].size) ==>
      p(step.client.fileId, s.clients[step.client.client].size,
        PlanRows(step.client.fileId, s.clients[step.client.client].size, c.chunkSize, step.client.ids))
    ensures AllFiles(Apply(c, s, step), p) && AllPlacing(Apply(c, s, step), z)
  {
    assert ForeignKeysHold(s.db);
    hide Sound, PlanRows, ChunkCount, ApplyPrepare, ForeignKeysHold;
    if step.ByClient? && step.client.PrepareWrite? {
      var x := step.client;
      PlannedRows(x.fileId, s.clients[x.client].size, c.chunkSize, x.ids);
      PlannedLength(x.fileId, s.clients[x.client].size, c.chunkSize, x.ids);
      hide AllFiles;
      PrepareAddsFile(c, s, x, PlanRows(x.fileId, s.clients[x.client].size, c.chunkSize, x.ids), p, z);
    } else if step.ByClient? {
      hide ApplyClient;
      ClientSameFiles(c, s, step.client);
    } else {
      OtherSameFiles(c, s, step);
      hide Apply, Enabled;
    }
  }

  /** Sizes that PrepareUpload accepts. */
  predicate Accepted(chunkSize: int, size: int) {
    && 0 < size && IsInt64(size) && 0 < chunkSize && IsInt64(chunkSize)
    && ChunkCount(size, chunkSize) >= 0
  }

  lemma PlanHasProperty(f: string, size: int, chunkSize: int, ids: seq<string>)
    requires Accepted(chunkSize, size) && |ids| == ChunkCount(size, chunkSize)
    ensures IsPlanFor(f, size, chunkSize, PlanRows(f, size, chunkSize, ids))
  {
    var rows := PlanRows(f, size, chunkSize, ids);
    assert seq(|rows|, i requires 0 <= i < |rows| => rows[i].id) == ids;
  }

  /** In every reachable state the rows stored for a file are the plan for its size. */
  lemma {:induction false} StoredRowsArePlans(c: Config, states: seq<State>, steps: seq<Step>, i: nat)
    requires IsRunFromInit(c, states, steps) && i < |states|
    ensures AllFiles(states[i], (f, size, rows) => IsPlanFor(f, size, c.chunkSize, rows))
    ensures AllPlacing(states[i], size => Accepted(c.chunkSize, size))
  {
    hide ChunkCount, PlanRows, IsPlanFor, Accepted, Apply, Enabled, Sound;
    if i > 0 {
      StoredRowsArePlans(c, states, steps, i - 1);
      Safety(c, states, steps, i - 1);
      RunStep(c, states, steps, i - 1);
      hide AllFiles, AllPlacing, IsRunFromInit;
      StepPlans(c, states[i - 1], steps[i - 1]);
    }
  }

  lemma StepPlans(c: Config, s: State, step: Step)
    requires Sound(c, s) && Enabled(c, s, step)
    requires AllFiles(s, (f, size, rows) => IsPlanFor(f, size, c.chunkSize, rows))
    requires AllPlacing(s, size => Accepted(c.chunkSize, size))
    ensures AllFiles(Apply(c, s, step), (f, size, rows) => IsPlanFor(f, size, c.chunkSize, rows))
    ensures AllPlacing(Apply(c, s, step), size => Accepted(c.chunkSize, size))
  {
    hide Sound, ChunkCount, PlanRows, IsPlanFor, AllFiles, Apply;
    var z: SizeProperty := size => Accepted(c.chunkSize, size);
    if step.ByClient? && step.client.PrepareWrite? {
      var x := step.client;
      assert z(s.clients[x.client].size);
      PlanHasProperty(x.fileId, s.clients[x.client].size, c.chunkSize, x.ids);
    }
    hide AllPlacing;
    PropertyStep(c, s, step, (f, size, rows) => IsPlanFor(f, size, c.chunkSize, rows), z);
  }

  /** A stored file has chunks exactly when its size did not overflow the chunk arithmetic. */
  lemma PlannableHasRows(f: string, size: int, chunkSize: int, rows: seq<ChunkRow>)
    requires IsPlanFor(f, size, chunkSize, rows)
    ensures rows != [] <==> Plannable(size, chunkSize)
  {
    hide PlanRows;
    PlanPartitionsExactly(size, chunkSize);
    if Plannable(size, chunkSize) {
      CountBounds(size, chunkSize);
    }
    hide ChunkCount, Sizes;
  }

  lemma SizeLimit(f: string, size: int, chunkSize: int, rows: seq<ChunkRow>)
    requires IsPlanFor(f, size, chunkSize, rows)
    ensures Plannable(size, chunkSize) <==> size + chunkSize <= 9223372036854775808
    ensures 0 < size && 0 < chunkSize
  {
    hide PlanRows, ChunkCount;
  }

  lemma StoredPlan(c: Config, states: seq<State>, steps: seq<Step>, i: nat, f: string)
    requires IsRunFromInit(c, states, steps) && i < |states| && f in states[i].db.files
    ensures f in states[i].history.layout
    ensures IsPlanFor(f, states[i].db.files[f].size, c.chunkSize, states[i].history.layout[f])
    ensures HoldsRows(states[i].db, f, states[i].history.layout[f])
  {
    Safety(c, states, steps, i);
    StoredRowsArePlans(c, states, steps, i);
    assert FileShape(states[i].db, states[i].history, f);
    hide IsPlanFor;
  }

  /** In every reachable state the chunks of a file, read back in index order, partition it, and cutting its
      content along them and joining the pieces gives the content back — exactly when the file has chunks at
      all, which is when its size is at most 2^63 minus the chunk size. Committed files always are. */
  lemma ChunksPartitionFile<T>(c: Config, states: seq<State>, steps: seq<Step>, i: nat, f: string, q: seq<ChunkRow>, content: seq<T>)
    requires IsRunFromInit(c, states, steps) && i < |states| && f in states[i].db.files
    requires IsChunkListing(states[i].db, f, q) && |content| == states[i].db.files[f].size
    ensures states[i].db.files[f].status == Committed ==> q != []
    ensures q != [] <==> states[i].db.files[f].size + c.chunkSize <= 9223372036854775808
    ensures q != [] ==>
      var sizes := seq(|q|, k requires 0 <= k < |q| => q[k].chunk.size);
      && IsPartition(sizes, |content|, c.chunkSize)
      && (forall k :: 0 <= k < |q| ==> q[k].chunk.index == k)
      && Join(Split(content, sizes)) == content
  {
    var db, rows := states[i].db, states[i].history.layout;
    StoredPlan(c, states, steps, i, f);
    PlannableHasRows(f, db.files[f].size, c.chunkSize, rows[f]);
    hide ChunkCount, PlanRows, SizeAt;
    ListingIsRows(db, f, rows[f], q);
    if db.files[f].status == Committed {
      CommittedFilesAreReplicated(c, states, steps, i, f);
      assert RowIds(rows[f]) != {};
    }
    SizeLimit(f, db.files[f].size, c.chunkSize, rows[f]);
    hide HoldsRows, Plannable;
    if q != [] {
      StoredPlanRoundTrip(db, f, db.files[f].size, c.chunkSize, rows[f], q, content);
    }
  }

  /** Byte for byte: chunk `k` of a file covers the bytes from k chunk sizes on, a whole chunk of them or the rest. */
  lemma ChunkCovers<T>(c: Config, states: seq<State>, steps: seq<Step>, i: nat, f: string, q: seq<ChunkRow>, content: seq<T>, k: nat)
    requires IsRunFromInit(c, states, steps) && i < |states| && f in states[i].db.files
    requires IsChunkListing(states[i].db, f, q) && |content| == states[i].db.files[f].size && k < |q|
    ensures var (sizes, start) := (seq(|q|, j requires 0 <= j < |q| => q[j].chunk.size), k * c.chunkSize);
      && (forall j :: 0 <= j < |sizes| ==> 0 <= sizes[j]) && Sum(sizes) == |content| && |Split(content, sizes)| == |q|
      && 0 < c.chunkSize && 0 <= start < |content|
      && (k < |q| - 1 ==> start + c.chunkSize <= |content| && Split(content, sizes)[k] == content[start..start + c.chunkSize])
      && (k == |q| - 1 ==> |content| <= start + c.chunkSize && Split(content, sizes)[k] == content[start..])
      && q[k].chunk == Chunk(f, k, |Split(content, sizes)[k]|)
  {
    hide IsRunFromInit, IsChunkListing, IsPartition, Join, Split, Sum;
    ChunksPartitionFile(c, states, steps, i, f, q, content);
    PositiveChunkSize(c, states, steps, i, f);
    ListingFile(states[i].db, f, q, k);
    PieceCovers(content, seq(|q|, j requires 0 <= j < |q| => q[j].chunk.size), c.chunkSize, k);
  }

  lemma PositiveChunkSize(c: Config, states: seq<State>, steps: seq<Step>, i: nat, f: string)
    requires IsRunFromInit(c, states, steps) && i < |states| && f in states[i].db.files
    ensures 0 < c.chunkSize
  {
    StoredPlan(c, states, steps, i, f);
    SizeLimit(f, states[i].db.files[f].size, c.chunkSize, states[i].history.layout[f]);
  }

  lemma PieceCovers<T>(content: seq<T>, sizes: seq<int>, chunkSize: int, k: nat)
    requires IsPartition(sizes, |content|, chunkSize) && k < |sizes| && 0 < chunkSize
    ensures var start := k * chunkSize;
      && (forall j :: 0 <= j < |sizes| ==> 0 <= sizes[j]) && Sum(sizes) == |content| && |Split(content, sizes)| == |sizes|
      && 0 <= start < |content|
      && (k < |sizes| - 1 ==> start + chunkSize <= |content| && Split(content, sizes)[k] == content[start..start + chunkSize])
      && (k == |sizes| - 1 ==> |content| <= start + chunkSize && Split(content, sizes)[k] == content[start..])
      && sizes[k] == |Split(content, sizes)[k]|
  {
    hide Split, Sum;
    PieceAt(content, sizes, chunkSize, k);
    PieceSizes(content, sizes);
  }

  lemma ListingFile(db: Db, f: string, q: seq<ChunkRow>, k: nat)
    requires IsChunkListing(db, f, q) && k < |q|
    ensures q[k].chunk.fileId == f
  {
  }

  lemma PieceSizes<T>(content: seq<T>, sizes: seq<int>)
    requires (forall j :: 0 <= j < |sizes| ==> 0 <= sizes[j]) && Sum(sizes) == |content|
    ensures |Split(content, sizes)| == |sizes| && forall j :: 0 <= j < |sizes| ==> |Split(content, sizes)[j]| == sizes[j]
  {
    SplitJoin(content, sizes);
  }

  // ---- Prepare, then commit ----

  /** PrepareUpload returned session `q` and placement `plan` for file `f` in step `j`. */
  ghost predicate PreparedAt(states: seq<State>, steps: seq<Step>, j: nat, f: string, q: string, plan: map<string, seq<string>>) {
    && j < |steps| && j + 1 < |states|
    && steps[j].ByClient? && steps[j].client.PrepareWrite?
    && steps[j].client.fileId == f && steps[j].client.sessionId == q && steps[j].client.plan == plan
    && f !in states[j].db.files && f in states[j + 1].db.files
  }

  lemma PreparedState(c: Config, states: seq<State>, steps: seq<Step>, j: nat, f: string, q: string, plan: map<string, seq<string>>)
    requires IsRunFromInit(c, states, steps) && PreparedAt(states, steps, j, f, q, plan)
    ensures SessionFor(states[j + 1], f, q, plan)
  {
    Safety(c, states, steps, j);
    var s, x := states[j], steps[j].client;
    RunStep(c, states, steps, j);
    hide Sound, IsRunFromInit, PlanRows, ChunkCount, ApplyPrepare, OnlyGrows;
    PlannedRows(f, s.clients[x.client].size, c.chunkSize, x.ids);
    PlannedLength(f, s.clients[x.client].size, c.chunkSize, x.ids);
    PrepareGrows(c, s, x, PlanRows(f, s.clients[x.client].size, c.chunkSize, x.ids));
  }

  /** The returned placement covers the file in every later state. */
  lemma PlanCovers(c: Config, s: State, f: string, q: string)
    requires Sound(c, s) && q in s.db.sessions && s.db.sessions[q].fileId == f
    ensures f in s.db.files && f in s.history.layout && q in s.history.plans
    ensures Covers(s.db, c.r, f, s.history.plans[q])
    ensures ChunkIds(s.db, f) != {} <==> s.history.layout[f] != []
    ensures s.db.sessions[q].status == Preparing || s.db.sessions[q].status == Finished
    ensures s.db.files[f].status == Committed ==> s.db.sessions[q].status == Finished
  {
    assert FileShape(s.db, s.history, f);
    var rows := s.history.layout[f];
    if rows != [] {
      assert rows[0] in rows;
      assert rows[0].id in RowIds(rows);
    }
  }

  /** Committing a prepared session with the very placement it came with succeeds after any interleaving,
      exactly unless the file was deleted before the commit or is too large to plan; and then the file is committed. */
  lemma PrepareThenCommit(c: Config, states: seq<State>, steps: seq<Step>, j: nat, i: nat, f: string, q: string, plan: map<string, seq<string>>)
    requires IsRunFromInit(c, states, steps) && PreparedAt(states, steps, j, f, q, plan) && j < i < |states|
    ensures q in states[i].db.sessions && f in states[i].db.files
    ensures CommitSucceeds(states[i].db, c.r, q, plan) <==>
      || states[i].db.sessions[q].status == Finished
      || (states[i].db.files[f].status != Deleted && states[i].db.files[f].size + c.chunkSize <= 9223372036854775808)
    ensures CommitSucceeds(states[i].db, c.r, q, plan) ==> AfterCommit(states[i].db, c.r, q, plan).sessions[q].status == Finished
    ensures CommitSucceeds(states[i].db, c.r, q, plan) && states[i].db.files[f].status != Deleted ==>
      AfterCommit(states[i].db, c.r, q, plan).files[f].status == Committed
  {
    hide IsRunFromInit, Sound, IsPlanFor, Plannable, HoldsRows, Covers, ChunkIds, RowsOf, OnlyGrows, SessionFor, PreparedAt;
    PreparedState(c, states, steps, j, f, q, plan);
    PreparedLater(c, states, steps, j, i, f, q, plan);
    var s := states[i];
    StoredPlan(c, states, steps, i, f);
    PlannableHasRows(f, s.db.files[f].size, c.chunkSize, s.history.layout[f]);
    SizeLimit(f, s.db.files[f].size, c.chunkSize, s.history.layout[f]);
    if Committable(s.db, q) {
      CommitExactInRun(c, states, steps, i, q, plan);
    }
  }

  /** What is known of a prepared upload in any later state. */
  lemma PreparedLater(c: Config, states: seq<State>, steps: seq<Step>, j: nat, i: nat, f: string, q: string, plan: map<string, seq<string>>)
    requires IsRunFromInit(c, states, steps) && j < i < |states| && SessionFor(states[j + 1], f, q, plan)
    ensures var s := states[i];
      && q in s.db.sessions && s.db.sessions[q].fileId == f && f in s.db.files && f in s.history.layout
      && Covers(s.db, c.r, f, plan)
      && (ChunkIds(s.db, f) != {} <==> s.history.layout[f] != [])
      && (s.db.sessions[q].status == Preparing || s.db.sessions[q].status == Finished)
      && (s.db.files[f].status == Committed ==> s.db.sessions[q].status == Finished)
      && (s.db.sessions[q].status == Finished ==> s.db.files[f].status != Pending)
  {
    GrowsOverRun(c, states, steps, j + 1, i);
    Safety(c, states, steps, i);
    hide IsRunFromInit, Sound, Covers, ChunkIds;
    assert SessionFor(states[i], f, q, plan);
    PlanCovers(c, states[i], f, q);
    FinishedIsCommittedOnce(c, states[i], q);
  }

  lemma FinishedIsCommittedOnce(c: Config, s: State, q: string)
    requires Sound(c, s) && q in s.db.sessions && s.db.sessions[q].fileId in s.db.files
    ensures s.db.sessions[q].status == Finished ==> s.db.files[s.db.sessions[q].fileId].status != Pending
  {
  }
}
