/** Who adds location rows: commits for files that are pending, and repair, one row per recorded copy. */
module ReplicaRows {
  import opened Prelude
  import opened Tables
  import opened ControlPlane
  import opened ControlPlaneSafety
  import opened ControlPlaneTheorems
  import ChunkPlan
  import FileLifecycle
  import Registry
  import Repair

  /** `x` is stored, and its file has been committed at some time. */
  ghost predicate EverCommittedChunk(s: State, x: string) {
    x in s.db.chunks && s.db.chunks[x].fileId in s.history.everCommitted
  }

  lemma StaysCommitted(s: State, s': State, x: string)
    requires EverCommittedChunk(s, x) && OnlyGrows(s, s')
    ensures EverCommittedChunk(s', x)
  {
  }

  ghost predicate CopyingChunk(k: Scanner, x: string) {
    AtChunk(k) && k.chunks[k.index] == x
  }

  /** New rows for a chunk of an ever-committed file come from repair only, and then from the recorded target. */
  ghost predicate RowsGain(s: State, s': State, x: string) {
    || Replicas(s'.db, x) == Replicas(s.db, x)
    || (&& CopyingChunk(s.scanner, x) && s.scanner.phase.Recording?
        && Replicas(s'.db, x) == Replicas(s.db, x) + {s.scanner.phase.target.id})
  }

  lemma RecordGains(c: Config, s: State, x: string)
    requires ScanEnabled(s, ScanRecord)
    ensures RowsGain(s, ApplyTransfer(c, s, ScanRecord), x)
  {
    var s' := ApplyTransfer(c, s, ScanRecord);
    var k := s.scanner;
    if InsertLocation(s.db, Location(k.chunks[k.index], k.phase.target.id)).Ok? {
      Repair.RowAdded(s.db, s'.db, k.chunks[k.index], k.phase.target.id);
    }
    hide Replicas;
  }

  /** A commit that writes never lists a chunk of a file that was committed before. */
  lemma CommitAvoids(c: Config, db: Db, h: History, q: string, m: map<string, seq<string>>, x: string)
    requires Lifecycle(db, h) && FileLifecycle.CommitWrites(db, c.r, q, m)
    requires x in db.chunks && db.chunks[x].fileId in h.everCommitted
    ensures x !in m
  {
    hide FileLifecycle.RowsOf, NoDup;
    assert db.chunks[x].fileId != db.sessions[q].fileId;
    assert x !in ChunkIds(db, db.sessions[q].fileId);
  }

  lemma CommitGains(c: Config, s: State, q: string, m: map<string, seq<string>>, x: string)
    requires Sound(c, s) && EverCommittedChunk(s, x)
    ensures Replicas(ApplyCommit(c, s, q, m).db, x) == Replicas(s.db, x)
  {
    hide Shape, Lifecycle, Rows, Plans, ClientsSound, ScannerSound, Conserved, FileLifecycle.CommitWrites, FileLifecycle.AfterCommit, Replicas;
    if FileLifecycle.CommitWrites(s.db, c.r, q, m) {
      CommitAvoids(c, s.db, s.history, q, m, x);
      CommittedReplicas(c, s.db, q, m, x);
    }
  }

  lemma PrepareGains(s: State, step: ClientStep, rows: seq<ChunkRow>)
    requires step.PrepareWrite? && step.client in s.clients && s.clients[step.client].Placing?
    ensures ApplyPrepare(s, step, rows).db.locations == s.db.locations
  {
    var k := s.clients[step.client];
    var b := s.db.(files := s.db.files[step.fileId := File(k.name, k.size, Pending)],
                   sessions := s.db.sessions[step.sessionId := Session(step.fileId, Preparing)]);
    InsertChunkRowsExact(b, rows);
    hide InsertChunkRows, ChunkRowsFit;
  }

  lemma ClientGains(c: Config, s: State, step: ClientStep, x: string)
    requires Sound(c, s) && EverCommittedChunk(s, x)
    requires ClientEnabled(c, s, step)
    ensures Replicas(ApplyClient(c, s, step).db, x) == Replicas(s.db, x)
  {
    hide Sound, ChunkPlan.ChunkCount, ChunkPlan.PlanRows, ApplyPrepare, ApplyCommit, Lists, HealthyRows;
    match step {
      case PrepareWrite(t, f, _, ids, _) =>
        PrepareGains(s, step, ChunkPlan.PlanRows(f, s.clients[t].size, c.chunkSize, ids));
        SameReplicas(s.db, ApplyClient(c, s, step).db);
        hide Replicas;
      case Commit(q, m) =>
        CommitGains(c, s, q, m, x);
        hide Replicas;
      case _ =>
        assert ApplyClient(c, s, step).db.locations == s.db.locations;
        SameReplicas(s.db, ApplyClient(c, s, step).db);
        hide Replicas;
    }
  }

  lemma ReadsGain(s: State, s': State, x: string)
    requires ReadsOnly(s, s')
    ensures RowsGain(s, s', x)
  {
    hide ScannerSound, Conserved;
  }

  lemma ScanGains(c: Config, s: State, step: ScanStep, x: string)
    requires Sound(c, s) && ScanEnabled(s, step)
    ensures RowsGain(s, ApplyScan(c, s, step), x)
  {
    hide Sound, RowsGain, ReadsOnly, ScanEnabled, ApplyTransfer;
    if step.ScanRecord? {
      RecordGains(c, s, x);
    } else {
      ScanOnlyReads(c, s, step);
      hide ApplyScan;
      ReadsGain(s, ApplyScan(c, s, step), x);
    }
  }

  lemma StepGains(c: Config, s: State, step: Step, x: string)
    requires Sound(c, s) && Enabled(c, s, step)
    requires EverCommittedChunk(s, x)
    ensures RowsGain(s, Apply(c, s, step), x)
  {
    hide Sound, ClientEnabled, ScanEnabled, ApplyClient, ApplyScan, Registry.Verdict, Lists, NodeRows;
    match step {
      case ByClient(k) => ClientGains(c, s, k, x); hide Replicas;
      case ByScanner(k) => hide RowsGain; ScanGains(c, s, k, x);
      case _ =>
        SameReplicas(s.db, Apply(c, s, step).db);
        hide Replicas;
    }
  }

  lemma ClientKeepsDisks(c: Config, s: State, step: ClientStep)
    requires ClientEnabled(c, s, step)
    ensures ApplyClient(c, s, step).disks == s.disks && ApplyClient(c, s, step).scanner == s.scanner
  {
    hide ChunkPlan.ChunkCount, ChunkPlan.PlanRows, FileLifecycle.PrepareRows, FileLifecycle.CommitWrites,
      FileLifecycle.AfterCommit, Lists, HealthyRows;
  }

  /** Only the repair goroutine moves itself or adds rows for a chunk of an ever-committed file. */
  lemma OthersKeepRows(c: Config, s: State, step: Step, x: string)
    requires Sound(c, s) && Enabled(c, s, step) && !step.ByScanner? && EverCommittedChunk(s, x)
    ensures !step.Restart? ==> Apply(c, s, step).scanner == s.scanner
    ensures Replicas(Apply(c, s, step).db, x) == Replicas(s.db, x)
  {
    hide Sound, ClientEnabled, ApplyClient, Registry.Verdict, Lists, NodeRows;
    if step.ByClient? {
      ClientGains(c, s, step.client, x);
      ClientKeepsDisks(c, s, step.client);
    } else {
      SameReplicas(s.db, Apply(c, s, step).db);
    }
    hide Replicas;
  }
}
