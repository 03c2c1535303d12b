/** What each request of the state machine achieves when nothing comes between its steps, in terms of tables and disks. */
module RequestEffects {
  import opened Prelude
  import opened Tables
  import opened ControlPlane
  import opened CopyChunk
  import ChunkFile
  import ChunkPlan
  import FileLifecycle
  import Placement

  /** Whenever the file is known and the request is new, both statements can be run, and then the file is deleted, with
      its name and size, and nothing else has changed. */
  lemma DeleteTakesEffect(c: Config, s: State, t: nat, f: string)
    requires t !in s.clients && f in s.db.files
    ensures Enabled(c, s, ByClient(DeleteRead(t, f)))
    ensures var read := Apply(c, s, ByClient(DeleteRead(t, f)));
            && read.db == s.db && read.clients == s.clients[t := Deleting(f)]
            && Enabled(c, read, ByClient(DeleteWrite(t)))
            && var after := Apply(c, read, ByClient(DeleteWrite(t)));
               after.db == s.db.(files := s.db.files[f := File(s.db.files[f].name, s.db.files[f].size, FileStatus.Deleted)])
  {
  }

  /** A heartbeat that reads its clock and waits stores the second it read, for a known and for a new node. */
  lemma HeartbeatTakesEffect(c: Config, s: State, t: nat, n: string, address: string, wait: nat) returns (after: State)
    requires t !in s.clients && n != "" && s.clock >= 0
    ensures Enabled(c, s, ByClient(BeatStart(t, n, address)))
    ensures var started := Apply(c, s, ByClient(BeatStart(t, n, address)));
            var waited := Apply(c, started, Tick(wait));
            && Enabled(c, waited, ByClient(BeatUpdate(t)))
            && var updated := Apply(c, waited, ByClient(BeatUpdate(t)));
               if n in s.db.nodes then after == updated
               else Enabled(c, updated, ByClient(BeatInsert(t))) && after == Apply(c, updated, ByClient(BeatInsert(t)))
    ensures n in after.db.nodes && after.db == s.db.(nodes := s.db.nodes[n := after.db.nodes[n]])
    ensures after.db.nodes[n].address == address && after.db.nodes[n].status == Healthy
    ensures after.db.nodes[n].lastHeartbeat * 1_000_000_000 <= s.clock < after.db.nodes[n].lastHeartbeat * 1_000_000_000 + 1_000_000_000
    ensures after.clock == s.clock + wait
  {
    var updated := Apply(c, Apply(c, Apply(c, s, ByClient(BeatStart(t, n, address))), Tick(wait)), ByClient(BeatUpdate(t)));
    after := if n in s.db.nodes then updated else Apply(c, updated, ByClient(BeatInsert(t)));
  }

  /** A restart loses the work in progress, and nothing else. */
  lemma RestartTakesEffect(c: Config, s: State)
    ensures Enabled(c, s, Restart)
    ensures var after := Apply(c, s, Restart);
            && after.db == s.db && after.disks == s.disks && after.clock == s.clock
            && after.clients == map[] && after.monitor.Resting? && after.scanner.Idle?
  {
  }

  /** An upload to a node without the chunk can be read back, up to 16 MiB, and disturbs no other chunk or node. */
  lemma UploadTakesEffect(c: Config, s: State, a: string, x: string, data: ChunkFile.Bytes)
    requires a in s.disks && x != "" && |data| <= 16 * 1024 * 1024
    requires Read(c.sha, s.disks[a], x) == Err(ChunkFile.NotFound)
    ensures Enabled(c, s, ByDisk(PutChunk(a, x, data)))
    ensures var after := Apply(c, s, ByDisk(PutChunk(a, x, data)));
            && after == s.(disks := after.disks) && after.disks.Keys == s.disks.Keys
            && Read(c.sha, after.disks[a], x) == Ok(data)
            && (forall y :: y != x ==> Read(c.sha, after.disks[a], y) == Read(c.sha, s.disks[a], y))
            && (forall b :: b in s.disks && b != a ==> after.disks[b] == s.disks[b])
  {
    var d := s.disks[a];
    ChunkFile.GetMeaning(c.sha, d.base, d.files, x);
    ChunkFile.PutAbsent(c.sha, d.base, d.files, x, data);
    forall y | y != x
      ensures ChunkFile.GetChunk(c.sha, d.base, ChunkFile.PutChunk(c.sha, d.base, d.files, x, data).files, y)
              == ChunkFile.GetChunk(c.sha, d.base, d.files, y)
    {
      ChunkFile.OthersRead(c.sha, d.base, d.files, x, data, y);
    }
    hide ChunkFile.PutChunk, ChunkFile.GetChunk, ChunkFile.Path;
  }

  /** A deletion at a node removes the chunk there, and nothing else. */
  lemma RemovalTakesEffect(c: Config, s: State, a: string, x: string)
    requires a in s.disks && x != ""
    ensures Enabled(c, s, ByDisk(DeleteChunk(a, x)))
    ensures var after := Apply(c, s, ByDisk(DeleteChunk(a, x)));
            && after == s.(disks := after.disks) && after.disks.Keys == s.disks.Keys
            && Read(c.sha, after.disks[a], x) == Err(ChunkFile.NotFound)
            && (forall y :: y != x ==> Read(c.sha, after.disks[a], y) == Read(c.sha, s.disks[a], y))
            && (forall b :: b in s.disks && b != a ==> after.disks[b] == s.disks[b])
  {
    var d := s.disks[a];
    forall y | y != x
      ensures ChunkFile.GetChunk(c.sha, d.base, ChunkFile.DeleteChunk(d.base, d.files, x), y) == ChunkFile.GetChunk(c.sha, d.base, d.files, y)
    {
      ChunkFile.OthersRead(c.sha, d.base, d.files, x, [], y);
    }
    hide ChunkFile.Path, ChunkFile.Intact;
  }

  /** A commit can be requested at any time. For a preparing session of a pending file it writes exactly when the map is
      right, and then file, session and location rows are these. */
  lemma CommitTakesEffect(c: Config, s: State, q: string, m: map<string, seq<string>>)
    requires q in s.db.sessions && s.db.sessions[q].status == Preparing
    requires s.db.sessions[q].fileId in s.db.files && s.db.files[s.db.sessions[q].fileId].status == Pending
    requires forall x, n :: x in m && n in m[x] ==> Location(x, n) !in s.db.locations
    ensures Enabled(c, s, ByClient(Commit(q, m)))
    ensures var (f, after) := (s.db.sessions[q].fileId, Apply(c, s, ByClient(Commit(q, m))));
      && after.disks == s.disks && after.scanner == s.scanner && after.monitor == s.monitor && after.clients == s.clients
      && (after.db != s.db <==>
            && (exists x :: x in s.db.chunks && s.db.chunks[x].fileId == f)
            && (forall x :: x in m <==> x in s.db.chunks && s.db.chunks[x].fileId == f)
            && (forall x :: x in m ==> |m[x]| >= c.r)
            && (forall x, i, j :: x in m && 0 <= i < j < |m[x]| ==> m[x][i] != m[x][j])
            && (forall x, n :: x in m && n in m[x] ==> n != ""))
      && (after.db != s.db ==>
            && after.db.files == s.db.files[f := File(s.db.files[f].name, s.db.files[f].size, FileStatus.Committed)]
            && after.db.sessions == s.db.sessions[q := Session(f, Finished)]
            && after.db.chunks == s.db.chunks && after.db.nodes == s.db.nodes
            && forall l :: l in after.db.locations <==> l in s.db.locations || (l.chunkId in m && l.nodeId in m[l.chunkId]))
  {
    FileLifecycle.CommitMeaning(s.db, c.r, q, m);
    var f, after := s.db.sessions[q].fileId, FileLifecycle.AfterCommit(s.db, c.r, q, m);
    assert FileLifecycle.CommitSucceeds(s.db, c.r, q, m) ==> after.files[f].status == FileStatus.Committed;
    assert FileLifecycle.CommitSucceeds(s.db, c.r, q, m) <==> FileLifecycle.CommitWrites(s.db, c.r, q, m);
    hide FileLifecycle.CommitSucceeds, FileLifecycle.CommitWrites, FileLifecycle.AfterCommit, FileLifecycle.RowsOf;
  }

  /** A prepared upload with unused IDs is stored: one pending file, one preparing session, and the planned chunks. */
  lemma PrepareTakesEffect(c: Config, s: State, t: nat, name: string, size: int, nodes: seq<NodeRow>, f: string, q: string,
    ids: seq<string>, plan: map<string, seq<string>>)
    requires t !in s.clients && 0 < size && 0 < c.chunkSize && size + c.chunkSize <= 9223372036854775808
    requires Lists(nodes, HealthyRows(s.db)) && 0 < c.r <= |nodes| && Placement.ValidPlacement(c.r, Elems(ids), nodes, plan)
    requires |ids| == (size + c.chunkSize - 1) / c.chunkSize && NoDup(ids) && forall x :: x in ids ==> x !in s.db.chunks
    requires f !in s.db.files && q !in s.db.sessions && ForeignKeysHold(s.db)
    ensures Enabled(c, s, ByClient(PrepareList(t, name, size, nodes)))
    ensures var listed := Apply(c, s, ByClient(PrepareList(t, name, size, nodes)));
            && listed.db == s.db && Enabled(c, listed, ByClient(PrepareWrite(t, f, q, ids, plan)))
            && var after := Apply(c, listed, ByClient(PrepareWrite(t, f, q, ids, plan)));
               && after.db.files == s.db.files[f := File(name, size, Pending)]
               && after.db.sessions == s.db.sessions[q := Session(f, Preparing)]
               && after.db.locations == s.db.locations && after.db.nodes == s.db.nodes
               && (forall x :: x in after.db.chunks <==> x in s.db.chunks || x in ids)
               && (forall x :: x in s.db.chunks ==> x in after.db.chunks && after.db.chunks[x] == s.db.chunks[x])
  {
    ChunkPlan.CountPlannable(size, c.chunkSize);
    var rows := ChunkPlan.PlanRows(f, size, c.chunkSize, ids);
    PlanFits(s.db, f, q, name, size, c.chunkSize, ids);
    hide ChunkPlan.ChunkCount, ChunkPlan.PlanRows, Lists, HealthyRows, Placement.ValidPlacement, FileLifecycle.PrepareRows, NoDup, Elems,
      ForeignKeysHold;
  }

  lemma PlanFits(db: Db, f: string, q: string, name: string, size: int, chunkSize: int, ids: seq<string>)
    requires NoDup(ids) && (forall x :: x in ids ==> x !in db.chunks) && f !in db.files && q !in db.sessions && ForeignKeysHold(db)
    ensures var r := FileLifecycle.PrepareRows(db, f, q, name, size, ChunkPlan.PlanRows(f, size, chunkSize, ids));
      && r.Ok? && r.value.files == db.files[f := File(name, size, Pending)]
      && r.value.sessions == db.sessions[q := Session(f, Preparing)]
      && r.value.locations == db.locations && r.value.nodes == db.nodes
      && (forall x :: x in r.value.chunks <==> x in db.chunks || x in ids)
      && (forall x :: x in db.chunks ==> x in r.value.chunks && r.value.chunks[x] == db.chunks[x])
  {
    var rows := ChunkPlan.PlanRows(f, size, chunkSize, ids);
    forall i | 0 <= i < |rows| ensures rows[i].id !in db.chunks {
      assert rows[i].id == ids[i];
    }
    FileLifecycle.PrepareExact(db, f, q, name, size, rows);
    FileLifecycle.PrepareMeaning(db, f, q, name, size, rows);
    hide FileLifecycle.PrepareRows, ChunkPlan.SizeAt;
    forall x | x in ids ensures exists i :: 0 <= i < |rows| && rows[i].id == x {
      var i :| 0 <= i < |ids| && ids[i] == x;
      assert rows[i].id == x;
    }
  }
}
