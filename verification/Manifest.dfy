/** The manifest manager: uploads are prepared and committed in one transaction each. */
module Manifest {
  import opened Prelude
  import opened Tables
  import opened ChunkPlan
  import opened FileLifecycle
  import Placement
  import SqliteStore

  datatype Error =
    | InvalidChunkSize
    | AllocationPanic
    | NotPlaced(placement: Placement.PlacementError)
    | SessionNotFound
    | InvalidSessionState
    | FileNotFound
    | FileNotPending
    | NoChunks
    | Incomplete
    | UnknownChunk(chunkId: string)
    | TooFewReplicas(chunkId: string)
    | EmptyNodeId(chunkId: string)
    | Database(e: DbError)

  /** The error for a session that cannot be committed at all. */
  function Refusal(db: Db, sessionId: string): Option<Error> {
    if sessionId !in db.sessions then Some(SessionNotFound)
    else match db.sessions[sessionId].status
      case Finished => None
      case Aborted => Some(InvalidSessionState)
      case Preparing =>
        var f := db.sessions[sessionId].fileId;
        if f !in db.files then Some(FileNotFound)
        else if db.files[f].status == FileStatus.Deleted then Some(FileNotPending) else None
  }

  class Manager {
    const store: SqliteStore.Store
    const placement: Placement.Engine
    const chunkSize: int
    const maxChunks: nat   // the longest chunk slice the runtime can allocate

    constructor (s: SqliteStore.Store, p: Placement.Engine, chunkSize: int, maxChunks: nat)
      ensures store == s && placement == p && this.chunkSize == chunkSize && this.maxChunks == maxChunks
    {
      store, placement, this.chunkSize, this.maxChunks := s, p, chunkSize, maxChunks;
    }

    /** Plans chunks, places replicas on healthy nodes, and writes file, session and chunks atomically. */
    method PrepareUpload(name: string, size: int, fileId: string, sessionId: string, newChunkId: nat -> string)
      returns (r: Result<map<string, seq<string>>, Error>)
      requires IsInt64(size) && IsInt64(chunkSize)
      modifies store
      ensures r.Err? ==> store.db == old(store.db)
      ensures r.Ok? <==>
        && chunkSize > 0 && 0 <= ChunkCount(size, chunkSize) <= maxChunks
        && 0 < placement.replicationFactor <= |HealthyIds(old(store.db))|
        && PrepareRows(old(store.db), fileId, sessionId, name, size,
             PlanRows(fileId, size, chunkSize, Generated(ChunkCount(size, chunkSize), newChunkId))).Ok?
      ensures r.Ok? ==>
        && var ids := Generated(ChunkCount(size, chunkSize), newChunkId);
        && PrepareRows(old(store.db), fileId, sessionId, name, size, PlanRows(fileId, size, chunkSize, ids)) == Ok(store.db)
        && r.value.Keys == Elems(ids)
        && (forall c :: c in r.value ==> |r.value[c]| == placement.replicationFactor && NoDup(r.value[c]))
        && (forall c, n :: c in r.value && n in r.value[c] ==> n in HealthyIds(old(store.db)))
      // The same in terms of the tables alone: what is written, and the placement returned.
      ensures r == Err(InvalidChunkSize) <==> chunkSize <= 0
      ensures r.Ok? ==>
        && fileId !in old(store.db).files && sessionId !in old(store.db).sessions
        && store.db.files == old(store.db).files[fileId := File(name, size, Pending)]
        && store.db.sessions == old(store.db).sessions[sessionId := Session(fileId, Preparing)]
        && store.db.locations == old(store.db).locations && store.db.nodes == old(store.db).nodes
        && (forall c :: c in old(store.db).chunks ==> c in store.db.chunks && store.db.chunks[c] == old(store.db).chunks[c])
        && (forall c :: c in store.db.chunks <==> c in old(store.db).chunks || c in r.value)
        && (forall c :: c in r.value ==> c !in old(store.db).chunks)
        && (forall c, i, j :: c in r.value && 0 <= i < j < |r.value[c]| ==> r.value[c][i] != r.value[c][j])
        && (forall c, n :: c in r.value && n in r.value[c] ==>
              n in old(store.db).nodes && old(store.db).nodes[n].status == Healthy)
    {
      ghost var before := store.db;
      r := PrepareSteps(name, size, fileId, sessionId, newChunkId);
      hide PrepareRows, ChunkCount, PlanRows, Generated, HealthyIds, NoDup, Elems;
      if r.Ok? {
        UploadMeaning(before, store.db, fileId, sessionId, name, size, chunkSize, newChunkId, r.value);
      }
    }

    /** The steps of PrepareUpload; its contract says in functions of the tables what happens. */
    method PrepareSteps(name: string, size: int, fileId: string, sessionId: string, newChunkId: nat -> string)
      returns (r: Result<map<string, seq<string>>, Error>)
      requires IsInt64(size) && IsInt64(chunkSize)
      modifies store
      ensures r.Err? ==> store.db == old(store.db)
      ensures r.Ok? <==>
        && chunkSize > 0 && 0 <= ChunkCount(size, chunkSize) <= maxChunks
        && 0 < placement.replicationFactor <= |HealthyIds(old(store.db))|
        && PrepareRows(old(store.db), fileId, sessionId, name, size,
             PlanRows(fileId, size, chunkSize, Generated(ChunkCount(size, chunkSize), newChunkId))).Ok?
      ensures r.Ok? ==>
        && var ids := Generated(ChunkCount(size, chunkSize), newChunkId);
        && PrepareRows(old(store.db), fileId, sessionId, name, size, PlanRows(fileId, size, chunkSize, ids)) == Ok(store.db)
        && r.value.Keys == Elems(ids)
        && (forall c :: c in r.value ==> |r.value[c]| == placement.replicationFactor && NoDup(r.value[c]))
        && (forall c, n :: c in r.value && n in r.value[c] ==> n in HealthyIds(old(store.db)))
      ensures r == Err(InvalidChunkSize) <==> chunkSize <= 0
    {
      if chunkSize <= 0 {
        return Err(InvalidChunkSize);
      }
      var planned := PlanChunks(fileId, size, chunkSize, maxChunks, newChunkId);
      if planned.Err? {
        return Err(AllocationPanic);
      }
      var chunks := planned.value;
      var listing := store.ListHealthyNodes();
      ListingIdsDistinct(store.db, listing);
      HealthyListing(store.db, listing);
      var nodes := new NodeRow[|listing|](i requires 0 <= i < |listing| => listing[i]);
      assert nodes[..] == listing;
      var placed := placement.SelectReplicas(chunks, nodes);
      if placed.Err? {
        return Err(NotPlaced(placed.error));
      }
      ghost var before := store.db;
      var tx := StoreUpload(fileId, sessionId, name, size, chunks);
      if tx.Err? {
        return Err(Database(tx.error));
      }
      PlacedOnHealthy(before, listing, placement.replicationFactor, set c | c in chunks :: c.id, placed.value);
      PlanIds(fileId, size, chunkSize, Generated(ChunkCount(size, chunkSize), newChunkId));
      r := Ok(placed.value);
    }

    /** The transaction of PrepareUpload, on whatever tables it finds: the placement may be older than they are. */
    method StoreUpload(fileId: string, sessionId: string, name: string, size: int, chunks: seq<ChunkRow>)
      returns (tx: Result<(), DbError>)
      modifies store
      ensures tx.Ok? ==> PrepareRows(old(store.db), fileId, sessionId, name, size, chunks) == Ok(store.db)
      ensures tx.Err? ==> PrepareRows(old(store.db), fileId, sessionId, name, size, chunks).Err? && store.db == old(store.db)
    {
      var snapshot := store.Begin();
      tx := store.CreateFile(fileId, File(name, size, Pending));
      if tx.Ok? {
        tx := store.CreateUploadSession(sessionId, Session(fileId, Preparing));
      }
      if tx.Ok? {
        tx := store.InsertChunks(chunks);
      }
      if tx.Err? {
        store.Rollback(snapshot);
      }
    }

    /** Reads the file, then marks it deleted: two separate statements. */
    method DeleteFile(fileId: string) returns (r: Result<(), Error>)
      modifies store
      ensures r == if fileId in old(store.db).files then Ok(()) else Err(FileNotFound)
      ensures store.db == SetFileStatus(old(store.db), fileId, Deleted)
      ensures r.Err? ==> store.db == old(store.db)
      ensures r.Ok? ==>
        var file := old(store.db).files[fileId];
        store.db == old(store.db).(files := old(store.db).files[fileId := File(file.name, file.size, FileStatus.Deleted)])
    {
      var file := store.GetFile(fileId);
      if file.None? {
        return Err(FileNotFound);
      }
      store.UpdateFileStatus(fileId, Deleted);
      r := Ok(());
    }

    /** Validates the replica map in whatever order the map yields its keys, then writes, all in one transaction. */
    method CommitUpload(sessionId: string, replicaMap: map<string, seq<string>>) returns (r: Result<(), Error>)
      requires IndexesUnique(store.db)
      modifies store
      ensures r.Ok? <==> CommitSucceeds(old(store.db), placement.replicationFactor, sessionId, replicaMap)
      ensures store.db == AfterCommit(old(store.db), placement.replicationFactor, sessionId, replicaMap)
      // An error changes nothing; the errors before the map is looked at are these.
      ensures r.Err? ==> store.db == old(store.db)
      ensures r == Err(SessionNotFound) <==> sessionId !in old(store.db).sessions
      ensures sessionId in old(store.db).sessions ==>
        (r == Err(InvalidSessionState) <==> old(store.db).sessions[sessionId].status == Aborted)
      ensures sessionId in old(store.db).sessions && old(store.db).sessions[sessionId].status == Preparing ==>
        && (r == Err(FileNotFound) <==> old(store.db).sessions[sessionId].fileId !in old(store.db).files)
        && (old(store.db).sessions[sessionId].fileId in old(store.db).files ==>
              (r == Err(FileNotPending) <==> old(store.db).files[old(store.db).sessions[sessionId].fileId].status == Deleted))
      // Success with nothing to write: the session is finished already, or its file is committed.
      ensures r.Ok? && store.db == old(store.db) ==>
        && sessionId in old(store.db).sessions
        && (|| old(store.db).sessions[sessionId].status == Finished
            || (&& old(store.db).sessions[sessionId].fileId in old(store.db).files
                && old(store.db).files[old(store.db).sessions[sessionId].fileId].status == Committed))
      ensures sessionId in old(store.db).sessions && old(store.db).sessions[sessionId].status == Finished ==>
        r.Ok? && store.db == old(store.db)
      // A preparing session of a pending file: what the map must be, and what is written.
      ensures sessionId in old(store.db).sessions && old(store.db).sessions[sessionId].status == Preparing
              && old(store.db).sessions[sessionId].fileId in old(store.db).files
              && old(store.db).files[old(store.db).sessions[sessionId].fileId].status == Pending ==>
        var (db, f) := (old(store.db), old(store.db).sessions[sessionId].fileId);
        && (r.Ok? <==>
              && (exists x :: x in db.chunks && db.chunks[x].fileId == f)
              && (forall x :: x in replicaMap <==> x in db.chunks && db.chunks[x].fileId == f)
              && (forall x :: x in replicaMap ==> |replicaMap[x]| >= placement.replicationFactor)
              && (forall x, i, j :: x in replicaMap && 0 <= i < j < |replicaMap[x]| ==> replicaMap[x][i] != replicaMap[x][j])
              && (forall x, n :: x in replicaMap && n in replicaMap[x] ==> n != "" && Location(x, n) !in db.locations))
        && (r.Ok? ==>
              && store.db.files == db.files[f := File(db.files[f].name, db.files[f].size, FileStatus.Committed)]
              && store.db.sessions == db.sessions[sessionId := Session(f, Finished)]
              && store.db.chunks == db.chunks && store.db.nodes == db.nodes
              && (forall l :: l in store.db.locations <==>
                    l in db.locations || (l.chunkId in replicaMap && l.nodeId in replicaMap[l.chunkId])))
    {
      var snapshot := store.Begin();
      r := CommitInTx(sessionId, replicaMap);
      if r.Err? {
        store.Rollback(snapshot);
      }
      if Committable(snapshot, sessionId) {
        CommitMeaning(snapshot, placement.replicationFactor, sessionId, replicaMap);
      } else {
        CommitRefused(snapshot, placement.replicationFactor, sessionId, replicaMap);
      }
      hide CommitSucceeds, AfterCommit;
    }

    /** The transaction body. An error may leave some location rows inserted. */
    method CommitInTx(sessionId: string, replicaMap: map<string, seq<string>>) returns (r: Result<(), Error>)
      requires IndexesUnique(store.db)
      modifies store
      ensures r.Ok? <==> CommitSucceeds(old(store.db), placement.replicationFactor, sessionId, replicaMap)
      ensures r.Ok? ==> store.db == AfterCommit(old(store.db), placement.replicationFactor, sessionId, replicaMap)
      ensures Refusal(old(store.db), sessionId).Some? ==> r == Err(Refusal(old(store.db), sessionId).value)
      ensures Refusal(old(store.db), sessionId).None? && r.Err? ==>
        r.error.NoChunks? || r.error.Incomplete? || r.error.UnknownChunk? || r.error.TooFewReplicas?
        || r.error.EmptyNodeId? || r.error.Database?
    {
      var session := store.GetUploadSession(sessionId);
      if session.None? {
        return Err(SessionNotFound);
      }
      if session.value.status == Finished {
        return Ok(());
      }
      if session.value.status != Preparing {
        return Err(InvalidSessionState);
      }
      var fileId := session.value.fileId;
      var file := store.GetFile(fileId);
      if file.None? {
        return Err(FileNotFound);
      }
      if file.value.status == Committed {
        return Ok(());
      }
      if file.value.status != Pending {
        return Err(FileNotPending);
      }
      var chunks := store.GetChunksByFileID(fileId);
      ListingCount(store.db, fileId, chunks);
      if |chunks| == 0 {
        return Err(NoChunks);
      }
      var expectedChunkCount := |chunks|;
      if |replicaMap| != expectedChunkCount {
        return Err(Incomplete);
      }
      var valid := ValidChunkIds(store.db, fileId, chunks);
      var rows := CollectLocations(replicaMap, valid, placement.replicationFactor);
      if rows.Err? {
        return Err(rows.error);
      }
      InsertionDecides(store.db, placement.replicationFactor, sessionId, replicaMap, rows.value);
      hide CommitWrites, InsertLocationRows, ChunkIds, RowsOf, NoDup, Elems;
      var inserted := store.InsertChunkLocations(rows.value);
      if inserted.Err? {
        return Err(Database(inserted.error));
      }
      store.UpdateFileStatus(fileId, Committed);
      store.UpdateUploadSessionStatus(sessionId, Finished);
      r := Ok(());
    }
  }

  /** The error names an entry of the map and what is wrong with it. */
  ghost predicate Names(error: Error, m: map<string, seq<string>>, valid: set<string>, r: int) {
    match error
    case UnknownChunk(c) => c in m && c !in valid
    case TooFewReplicas(c) => c in m && c in valid && |m[c]| < r
    case EmptyNodeId(c) => c in m && c in valid && |m[c]| >= r && "" in m[c]
    case _ => false
  }

  /** The set of chunk IDs of the file, gathered from the rows read. */
  method ValidChunkIds(ghost db: Db, ghost fileId: string, chunks: seq<ChunkRow>) returns (valid: set<string>)
    requires IsChunkListing(db, fileId, chunks)
    ensures valid == ChunkIds(db, fileId)
  {
    valid := {};
    for i := 0 to |chunks|
      invariant forall c :: c in valid <==> exists j :: 0 <= j < i && chunks[j].id == c
    {
      valid := valid + {chunks[i].id};
    }
  }

  /** One entry of the map: the checks, and the inner loop with one row per node ID, none of which may be empty. */
  method AppendEntry(before: seq<Location>, m: map<string, seq<string>>, chunkId: string, valid: set<string>, r: int)
    returns (result: Result<seq<Location>, Error>)
    requires chunkId in m
    ensures result.Ok? <==> chunkId in valid && |m[chunkId]| >= r && "" !in m[chunkId]
    ensures result.Ok? ==> result.value == before + Tagged(chunkId, m[chunkId])
    ensures result.Err? ==> Names(result.error, m, valid, r)
  {
    var nodeIds := m[chunkId];
    if chunkId !in valid {
      return Err(UnknownChunk(chunkId));
    }
    if |nodeIds| < r {
      return Err(TooFewReplicas(chunkId));
    }
    var locations := before;
    for j := 0 to |nodeIds|
      invariant "" !in nodeIds[..j]
      invariant locations == before + Tagged(chunkId, nodeIds[..j])
    {
      if nodeIds[j] == "" {
        return Err(EmptyNodeId(chunkId));
      }
      TaggedSnoc(chunkId, nodeIds, j);
      locations := locations + [Location(chunkId, nodeIds[j])];
    }
    assert nodeIds[..|nodeIds|] == nodeIds;
    result := Ok(locations);
  }

  /** The two nested loops over the replica map. They yield rows exactly when every entry is acceptable. */
  method CollectLocations(m: map<string, seq<string>>, valid: set<string>, r: int)
    returns (result: Result<seq<Location>, Error>)
    ensures result.Ok? <==> forall c :: c in m ==> c in valid && |m[c]| >= r && "" !in m[c]
    ensures result.Err? ==> Names(result.error, m, valid, r)
    ensures result.Ok? ==>
      && Elems(result.value) == RowsOf(m)
      && (NoDup(result.value) <==> forall c :: c in m ==> NoDup(m[c]))
  {
    var locations: seq<Location> := [];
    var rest := m.Keys;
    assert Restricted(m, {}) == map[] && Restricted(m, m.Keys) == m;
    assert Elems(locations) == RowsOf(Restricted(m, {})) && NoDup(locations);
    hide NoDup, Elems, RowsOf, Restricted, Tagged, Names;
    while rest != {}
      invariant rest <= m.Keys
      invariant forall c :: c in m && c !in rest ==> c in valid && |m[c]| >= r && "" !in m[c]
      invariant Elems(locations) == RowsOf(Restricted(m, m.Keys - rest))
      invariant NoDup(locations) <==> forall c :: c in m && c !in rest ==> NoDup(m[c])
      decreases |rest|
    {
      var chunkId :| chunkId in rest;
      var extended := AppendEntry(locations, m, chunkId, valid, r);
      if extended.Err? {
        return extended;
      }
      RowsExtend(m, m.Keys - rest, chunkId, locations);
      assert m.Keys - rest + {chunkId} == m.Keys - (rest - {chunkId});
      locations, rest := extended.value, rest - {chunkId};
    }
    assert m.Keys - rest == m.Keys;
    result := Ok(locations);
  }

  /** Once the loops have passed, the insertion fails exactly on a repeated node or a row already there. */
  lemma InsertionDecides(db: Db, r: int, sessionId: string, m: map<string, seq<string>>, rows: seq<Location>)
    requires Committable(db, sessionId) && ChunkIds(db, db.sessions[sessionId].fileId) != {}
    requires |m| == |ChunkIds(db, db.sessions[sessionId].fileId)|
    requires forall c :: c in m ==> c in ChunkIds(db, db.sessions[sessionId].fileId) && |m[c]| >= r && "" !in m[c]
    requires Elems(rows) == RowsOf(m) && (NoDup(rows) <==> forall c :: c in m ==> NoDup(m[c]))
    ensures InsertLocationRows(db, rows).Ok? <==> CommitWrites(db, r, sessionId, m)
    ensures InsertLocationRows(db, rows).Ok? ==>
            InsertLocationRows(db, rows).value == db.(locations := db.locations + RowsOf(m))
  {
    KeysCovered(m, ChunkIds(db, db.sessions[sessionId].fileId));
    InsertLocationRowsExact(db, rows);
    hide InsertLocationRows, NoDup;
    forall l | l in rows ensures l.chunkId in db.chunks {
      assert l in RowsOf(m);
    }
  }

  /** Counting: as many keys as chunks, all of them chunks, means no chunk is missing. */
  lemma KeysCovered(m: map<string, seq<string>>, valid: set<string>)
    requires |m| == |valid| && forall c :: c in m ==> c in valid
    ensures m.Keys == valid
  {
    SubsetCardinality(m.Keys, valid);
    assert |m.Keys| == |m|;
  }

  lemma ListingCount(db: Db, fileId: string, q: seq<ChunkRow>)
    requires IsChunkListing(db, fileId, q)
    ensures |q| == |ChunkIds(db, fileId)|
  {
    var ids := seq(|q|, i requires 0 <= i < |q| => q[i].id);
    forall i, j | 0 <= i < j < |ids| ensures ids[i] != ids[j] {
      assert q[i].chunk.index < q[j].chunk.index;
    }
    forall c | c in ChunkIds(db, fileId) ensures c in ids {
      var i :| 0 <= i < |q| && q[i].id == c;
      assert ids[i] == c;
    }
    assert Elems(ids) == ChunkIds(db, fileId);
    NoDupCardinality(ids);
  }

  lemma HealthyListing(db: Db, q: seq<NodeRow>)
    requires Lists(q, HealthyRows(db))
    ensures |q| == |HealthyIds(db)|
  {
    ListingIdsDistinct(db, q);
    var ids := seq(|q|, i requires 0 <= i < |q| => q[i].id);
    forall i | 0 <= i < |q| ensures ids[i] in HealthyIds(db) {
      assert q[i] in Elems(q);
    }
    forall n | n in HealthyIds(db) ensures n in ids {
      assert NodeRow(n, db.nodes[n]) in Elems(q);
      var i :| 0 <= i < |q| && q[i] == NodeRow(n, db.nodes[n]);
      assert ids[i] == n;
    }
    assert Elems(ids) == HealthyIds(db);
    NoDupCardinality(ids);
  }

  lemma PlacedOnHealthy(db: Db, q: seq<NodeRow>, r: int, ids: set<string>, plan: map<string, seq<string>>)
    requires Lists(q, HealthyRows(db)) && Placement.ValidPlacement(r, ids, q, plan)
    ensures forall c, n :: c in plan && n in plan[c] ==> n in HealthyIds(db)
  {
    forall c, n | c in plan && n in plan[c] ensures n in HealthyIds(db) {
      assert Placement.NodeNamed(q, n);
      var i :| 0 <= i < |q| && q[i].id == n;
      assert q[i] in Elems(q);
    }
  }

  /** The writes and the placement of a prepared upload, in terms of the tables alone. */
  lemma UploadMeaning(before: Db, after: Db, fileId: string, sessionId: string, name: string, size: int, chunkSize: int,
    newId: nat -> string, plan: map<string, seq<string>>)
    requires chunkSize > 0 && ChunkCount(size, chunkSize) >= 0
    requires var ids := Generated(ChunkCount(size, chunkSize), newId);
             && PrepareRows(before, fileId, sessionId, name, size, PlanRows(fileId, size, chunkSize, ids)) == Ok(after)
             && plan.Keys == Elems(ids)
    requires forall c :: c in plan ==> NoDup(plan[c])
    requires forall c, n :: c in plan && n in plan[c] ==> n in HealthyIds(before)
    ensures fileId !in before.files && sessionId !in before.sessions
    ensures after.files == before.files[fileId := File(name, size, Pending)]
    ensures after.sessions == before.sessions[sessionId := Session(fileId, Preparing)]
    ensures after.locations == before.locations && after.nodes == before.nodes
    ensures forall c :: c in before.chunks ==> c in after.chunks && after.chunks[c] == before.chunks[c]
    ensures forall c :: c in after.chunks <==> c in before.chunks || c in plan
    ensures forall c :: c in plan ==> c !in before.chunks
    ensures forall c, i, j :: c in plan && 0 <= i < j < |plan[c]| ==> plan[c][i] != plan[c][j]
    ensures forall c, n :: c in plan && n in plan[c] ==> n in before.nodes && before.nodes[n].status == Healthy
  {
    var ids := Generated(ChunkCount(size, chunkSize), newId);
    var rows := PlanRows(fileId, size, chunkSize, ids);
    PrepareMeaning(before, fileId, sessionId, name, size, rows);
    hide PrepareRows, ChunkCount, Generated;
    forall c ensures c in after.chunks <==> c in before.chunks || c in plan {
      if c in plan {
        var i :| 0 <= i < |ids| && ids[i] == c;
        assert rows[i].id == c;
      }
    }
    forall c | c in plan ensures c !in before.chunks {
      var i :| 0 <= i < |ids| && ids[i] == c;
      assert rows[i].id == c;
    }
    forall c, n | c in plan && n in plan[c] ensures n in before.nodes && before.nodes[n].status == Healthy {
      assert n in HealthyIds(before);
    }
  }

  /** The chunks that PrepareUpload stores for a file its arithmetic can plan, and the keys of the placement it returns. */
  lemma PlanMeaning(before: Db, after: Db, fileId: string, sessionId: string, name: string, size: int, chunkSize: int, newId: nat -> string)
    requires chunkSize > 0 && ChunkCount(size, chunkSize) >= 0
    requires var ids := Generated(ChunkCount(size, chunkSize), newId);
             PrepareRows(before, fileId, sessionId, name, size, PlanRows(fileId, size, chunkSize, ids)) == Ok(after)
    ensures 0 < size && size + chunkSize <= 9223372036854775808 ==>
      var count := (size + chunkSize - 1) / chunkSize;
      && count > 0 && Elems(Generated(ChunkCount(size, chunkSize), newId)) == (set i | 0 <= i < count :: newId(i))
      && (forall i :: 0 <= i < count ==> newId(i) in after.chunks)
      && (forall i :: 0 <= i < count - 1 ==> after.chunks[newId(i)] == Chunk(fileId, i, chunkSize))
      && after.chunks[newId(count - 1)] == Chunk(fileId, count - 1, size - (count - 1) * chunkSize)
  {
    if 0 < size && size + chunkSize <= 9223372036854775808 {
      var count, ids := ChunkCount(size, chunkSize), Generated(ChunkCount(size, chunkSize), newId);
      CountPlannable(size, chunkSize);
      CountBounds(size, chunkSize);
      assert forall i :: 0 <= i < count ==> ids[i] == newId(i);
      assert Elems(ids) == set i | 0 <= i < count :: newId(i);
      PrepareMeaning(before, fileId, sessionId, name, size, PlanRows(fileId, size, chunkSize, ids));
      hide ChunkCount, PrepareRows, Generated, PlanRows, Elems;
      forall i | 0 <= i < count
        ensures PlanRows(fileId, size, chunkSize, ids)[i].id == newId(i)
        ensures PlanRows(fileId, size, chunkSize, ids)[i].chunk
                == Chunk(fileId, i, if i == count - 1 then size - (count - 1) * chunkSize else chunkSize)
      {
        PlannedRow(fileId, size, chunkSize, ids, i);
      }
    }
  }

  lemma PlannedRow(fileId: string, size: int, chunkSize: int, ids: seq<string>, i: nat)
    requires i < |ids| && 0 < chunkSize && IsInt64(size) && (|ids| - 1) * chunkSize < size
    ensures |PlanRows(fileId, size, chunkSize, ids)| == |ids| && PlanRows(fileId, size, chunkSize, ids)[i].id == ids[i]
    ensures PlanRows(fileId, size, chunkSize, ids)[i].chunk
            == Chunk(fileId, i, if i == |ids| - 1 then size - (|ids| - 1) * chunkSize else chunkSize)
  {
    Ordered(0, |ids| - 1, chunkSize);
    SizeAtPlannable(size, chunkSize, |ids|, i);
    hide SizeAt;
  }

  lemma PlanIds(fileId: string, size: int, chunkSize: int, ids: seq<string>)
    ensures (set c | c in PlanRows(fileId, size, chunkSize, ids) :: c.id) == Elems(ids)
  {
    var rows := PlanRows(fileId, size, chunkSize, ids);
    forall x | x in ids ensures x in set c | c in rows :: c.id {
      var i :| 0 <= i < |ids| && ids[i] == x;
      assert rows[i] in rows;
    }
  }
}
