/** The promises of the control plane, for every run from empty tables. */
module ControlPlaneTheorems {
  import opened Prelude
  import opened Tables
  import opened ChunkPlan
  import opened FileLifecycle
  import opened ControlPlane
  import opened ControlPlaneSafety
  import Registry

  // ---- Replication ----

  /** A committed file has chunks, and each of them has at least `r` rows with different, non-empty node IDs. */
  lemma CommittedFilesAreReplicated(c: Config, states: seq<State>, steps: seq<Step>, i: nat, f: string)
    requires IsRunFromInit(c, states, steps) && i < |states|
    requires f in states[i].db.files && states[i].db.files[f].status == Committed
    ensures ForeignKeysHold(states[i].db)
    ensures ChunkIds(states[i].db, f) != {}
    ensures forall x :: x in ChunkIds(states[i].db, f) ==>
      |Replicas(states[i].db, x)| >= c.r && "" !in Replicas(states[i].db, x)
  {
    Safety(c, states, steps, i);
    var s := states[i];
    CommittedHasChunks(c, s, f);
  }

  lemma CommittedHasChunks(c: Config, s: State, f: string)
    requires Sound(c, s) && f in s.history.everCommitted
    ensures ForeignKeysHold(s.db) && ChunkIds(s.db, f) != {}
    ensures forall x :: x in ChunkIds(s.db, f) ==> |Replicas(s.db, x)| >= c.r && "" !in Replicas(s.db, x)
  {
    assert FileShape(s.db, s.history, f);
    var rows := s.history.layout[f];
    assert rows[0] in rows;
    assert rows[0].id in ChunkIds(s.db, f);
    forall x ensures "" !in Replicas(s.db, x) {
      LocationIsReplica(s.db, x, "");
    }
  }

  /** When repair records a new replica, the locations read at scan time are still the rows, and the plain
      INSERT violates no constraint. */
  lemma RepairBookkeepingNeverFails(c: Config, states: seq<State>, steps: seq<Step>, i: nat)
    requires IsRunFromInit(c, states, steps) && i < |states|
    requires states[i].scanner.Scanning? && states[i].scanner.phase.Recording?
    ensures var k := states[i].scanner;
            && k.index < |k.chunks|
            && Lists(k.locations, Replicas(states[i].db, k.chunks[k.index]))
            && k.phase.target.id !in k.locations
            && InsertLocation(states[i].db, Location(k.chunks[k.index], k.phase.target.id)).Ok?
  {
    Safety(c, states, steps, i);
    RecordingFits(states[i].db, states[i].history, states[i].scanner);
  }

  /** Location rows are exactly those of commits plus successful repairs; between chunks every attempt has ended,
      or was cut off by a restart. */
  lemma RowsAreConserved(c: Config, states: seq<State>, steps: seq<Step>, i: nat)
    requires IsRunFromInit(c, states, steps) && i < |states|
    ensures |states[i].db.locations| == states[i].history.commitRows + states[i].history.successes
    ensures states[i].scanner.Idle? || states[i].scanner.phase.Next? ==>
      states[i].history.attempts == states[i].history.successes + states[i].history.failures + states[i].history.lost
  {
    Safety(c, states, steps, i);
  }

  // ---- Commit ----

  /** For a preparing session of a pending file, CommitUpload succeeds exactly on a map that covers the file. */
  lemma CommitExactInRun(c: Config, states: seq<State>, steps: seq<Step>, i: nat, q: string, m: map<string, seq<string>>)
    requires IsRunFromInit(c, states, steps) && i < |states| && Committable(states[i].db, q)
    ensures CommitSucceeds(states[i].db, c.r, q, m) <==>
      && ChunkIds(states[i].db, states[i].db.sessions[q].fileId) != {}
      && Covers(states[i].db, c.r, states[i].db.sessions[q].fileId, m)
  {
    Safety(c, states, steps, i);
    PendingHasNoRows(c, states[i], q);
    CommitExact(states[i].db, c.r, q, m);
  }

  lemma PendingHasNoRows(c: Config, s: State, q: string)
    requires Sound(c, s) && Committable(s.db, q)
    ensures forall x :: x in ChunkIds(s.db, s.db.sessions[q].fileId) ==> Replicas(s.db, x) == {}
  {
  }

  /** The precondition of the commit and listing methods holds in every reachable state. */
  lemma ChunkIndexesUnique(c: Config, states: seq<State>, steps: seq<Step>, i: nat)
    requires IsRunFromInit(c, states, steps) && i < |states|
    ensures IndexesUnique(states[i].db)
  {
    Safety(c, states, steps, i);
    var db, h := states[i].db, states[i].history;
    forall x, y | x in db.chunks && y in db.chunks && x != y && db.chunks[x].fileId == db.chunks[y].fileId
      ensures db.chunks[x].index != db.chunks[y].index
    {
      IndexOf(db, h, x);
      IndexOf(db, h, y);
    }
  }

  lemma IndexOf(db: Db, h: History, x: string)
    requires Shape(db, h) && x in db.chunks
    ensures db.chunks[x].fileId in h.layout
    ensures 0 <= db.chunks[x].index < |h.layout[db.chunks[x].fileId]|
    ensures h.layout[db.chunks[x].fileId][db.chunks[x].index].id == x
  {
    var f := db.chunks[x].fileId;
    assert FileShape(db, h, f);
    assert x in ChunkIds(db, f);
    var row :| row in h.layout[f] && row.id == x;
    var i :| 0 <= i < |h.layout[f]| && h.layout[f][i] == row;
  }

  // ---- Lifecycle ----

  function Rank(status: FileStatus): nat {
    match status case Pending => 0 case Committed => 1 case Deleted => 2
  }

  /** A file stays in the table, keeps its name and size, and its status never moves back. */
  ghost predicate FilesAdvance(before: Db, after: Db) {
    forall f :: f in before.files ==>
      && f in after.files
      && after.files[f] == before.files[f].(status := after.files[f].status)
      && Rank(before.files[f].status) <= Rank(after.files[f].status)
  }

  /** Chunk and location rows are only ever added; a session keeps its file. */
  ghost predicate TablesGrow(before: Db, after: Db) {
    && (forall x :: x in before.chunks ==> x in after.chunks && after.chunks[x] == before.chunks[x])
    && before.locations <= after.locations
    && (forall q :: q in before.sessions ==> q in after.sessions && after.sessions[q].fileId == before.sessions[q].fileId)
  }

  ghost predicate HistoryGrows(before: History, after: History) {
    && (forall q :: q in before.plans ==> q in after.plans && after.plans[q] == before.plans[q])
    && (forall f :: f in before.layout ==> f in after.layout && after.layout[f] == before.layout[f])
    && before.everCommitted <= after.everCommitted
  }

  ghost predicate OnlyGrows(s: State, s': State) {
    FilesAdvance(s.db, s'.db) && TablesGrow(s.db, s'.db) && HistoryGrows(s.history, s'.history)
  }

  /** The new session belongs to the new file and carries the returned placement. */
  ghost predicate SessionFor(s: State, f: string, q: string, plan: map<string, seq<string>>) {
    && q in s.db.sessions && s.db.sessions[q].fileId == f
    && q in s.history.plans && s.history.plans[q] == plan
  }

  lemma PreparedGrows(s: State, s': State, f: string, q: string, name: string, size: int, rows: seq<ChunkRow>, plan: map<string, seq<string>>)
    requires Prepared(s.db, f, q, name, size, rows, s'.db) && f !in s.db.files && q !in s.db.sessions
    requires s.history.layout.Keys == s.db.files.Keys && s.history.plans.Keys == s.db.sessions.Keys
    requires s'.history == s.history.(layout := s.history.layout[f := rows],
                                      sessionOf := s.history.sessionOf[f := q],
                                      plans := s.history.plans[q := plan])
    ensures OnlyGrows(s, s')
    ensures SessionFor(s', f, q, plan)
  {
    hide FilesAdvance, TablesGrow, HistoryGrows, HoldsRows, RowIds;
    PreparedAdvances(s.db, f, q, name, size, rows, s'.db);
    PreparedTablesGrow(s.db, f, q, name, size, rows, s'.db);
    PreparedHistoryGrows(s.history, s'.history, f, q, rows, plan);
  }

  lemma PreparedAdvances(db: Db, f: string, q: string, name: string, size: int, rows: seq<ChunkRow>, d: Db)
    requires Prepared(db, f, q, name, size, rows, d) && f !in db.files
    ensures FilesAdvance(db, d)
  {
    hide HoldsRows, RowIds;
  }

  lemma PreparedTablesGrow(db: Db, f: string, q: string, name: string, size: int, rows: seq<ChunkRow>, d: Db)
    requires Prepared(db, f, q, name, size, rows, d) && q !in db.sessions
    ensures TablesGrow(db, d)
  {
    hide HoldsRows, RowIds;
  }

  lemma PreparedHistoryGrows(h: History, h': History, f: string, q: string, rows: seq<ChunkRow>, plan: map<string, seq<string>>)
    requires f !in h.layout && q !in h.plans
    requires h'.layout == h.layout[f := rows] && h'.plans == h.plans[q := plan] && h'.everCommitted == h.everCommitted
    ensures HistoryGrows(h, h')
  {
  }

  lemma PrepareGrows(c: Config, s: State, step: ClientStep, rows: seq<ChunkRow>)
    requires Sound(c, s) && step.PrepareWrite? && step.client in s.clients && s.clients[step.client].Placing?
    requires forall i :: 0 <= i < |rows| ==> rows[i].chunk.fileId == step.fileId && rows[i].chunk.index == i
    ensures OnlyGrows(s, ApplyPrepare(s, step, rows))
    ensures step.fileId !in s.db.files && step.fileId in ApplyPrepare(s, step, rows).db.files ==>
      SessionFor(ApplyPrepare(s, step, rows), step.fileId, step.sessionId, step.plan)
  {
    var k := s.clients[step.client];
    HistoryKeys(c, s);
    hide Sound, PrepareRows, SessionFor;
    PrepareExact(s.db, step.fileId, step.sessionId, k.name, k.size, rows);
    hide ForeignKeysHold, Numbered, Prepared;
    var r := PrepareRows(s.db, step.fileId, step.sessionId, k.name, k.size, rows);
    hide OnlyGrows;
    if r.Err? {
      NodesGrow(s, ApplyPrepare(s, step, rows));
    } else {
      PreparedGrows(s, ApplyPrepare(s, step, rows), step.fileId, step.sessionId, k.name, k.size, rows, step.plan);
    }
  }

  lemma HistoryKeys(c: Config, s: State)
    requires Sound(c, s)
    ensures s.history.layout.Keys == s.db.files.Keys && s.history.plans.Keys == s.db.sessions.Keys
    ensures ForeignKeysHold(s.db)
  {
    hide Lifecycle, Rows, NodesNamed, ScannerSound, Conserved, ClientsSound, ForeignKeysHold;
  }

  lemma CommitGrows(c: Config, s: State, q: string, m: map<string, seq<string>>)
    ensures OnlyGrows(s, ApplyCommit(c, s, q, m))
  {
    hide Covers, RowsOf, ChunkIds, OnlyGrows;
    if CommitWrites(s.db, c.r, q, m) {
      FinishGrows(s, ApplyCommit(c, s, q, m), s.db.sessions[q].fileId, q, RowsOf(m));
    } else {
      NodesGrow(s, s);
    }
  }

  lemma FinishGrows(s: State, s': State, f: string, q: string, rows: set<Location>)
    requires f in s.db.files && s.db.files[f].status == Pending && q in s.db.sessions
    requires s'.db == SetSessionStatus(SetFileStatus(s.db.(locations := s.db.locations + rows), f, Committed), q, Finished)
    requires s'.history == s.history.(everCommitted := s.history.everCommitted + {f}, commitRows := s'.history.commitRows)
    ensures OnlyGrows(s, s')
  {
  }

  lemma NodesGrow(s: State, s': State)
    requires s'.db == s.db.(nodes := s'.db.nodes)
    requires s'.history.plans == s.history.plans && s'.history.layout == s.history.layout
    requires s'.history.everCommitted == s.history.everCommitted
    ensures OnlyGrows(s, s')
  {
  }

  lemma ClientGrows(c: Config, s: State, step: ClientStep)
    requires Sound(c, s) && ClientEnabled(c, s, step)
    ensures OnlyGrows(s, ApplyClient(c, s, step))
  {
    hide Sound, ApplyPrepare, PlanRows, ChunkCount, OnlyGrows, ApplyCommit, Lists, HealthyRows;
    match step {
      case PrepareWrite(t, f, _, ids, _) =>
        PlannedRows(f, s.clients[t].size, c.chunkSize, ids);
        PlannedLength(f, s.clients[t].size, c.chunkSize, ids);
        PrepareGrows(c, s, step, PlanRows(f, s.clients[t].size, c.chunkSize, ids));
      case Commit(q, m) => CommitGrows(c, s, q, m);
      case DeleteWrite(t) => DeleteGrows(s, s.clients[t].fileId, ApplyClient(c, s, step));
      case _ => NodesGrow(s, ApplyClient(c, s, step));
    }
  }

  lemma DeleteGrows(s: State, f: string, s': State)
    requires s'.db == SetFileStatus(s.db, f, Deleted) && s'.history == s.history
    ensures OnlyGrows(s, s')
  {
  }

  lemma RecordGrows(c: Config, s: State)
    requires ScanEnabled(s, ScanRecord)
    ensures OnlyGrows(s, ApplyTransfer(c, s, ScanRecord))
  {
  }

  lemma ScanGrows(c: Config, s: State, x: ScanStep)
    requires Sound(c, s) && ScanEnabled(s, x)
    ensures OnlyGrows(s, ApplyScan(c, s, x))
  {
    hide Sound, OnlyGrows, ScanEnabled, ApplyTransfer, ScannerSound, Conserved;
    if x.ScanRecord? {
      RecordGrows(c, s);
    } else {
      ScanOnlyReads(c, s, x);
      hide ApplyScan;
      NodesGrow(s, ApplyScan(c, s, x));
    }
  }

  lemma MonitorGrows(c: Config, s: State, x: MonitorStep)
    requires MonitorEnabled(s, x)
    ensures OnlyGrows(s, ApplyMonitor(c, s, x))
  {
    hide OnlyGrows, Registry.Verdict;
    NodesGrow(s, ApplyMonitor(c, s, x));
  }

  lemma Grows(c: Config, s: State, step: Step)
    requires Sound(c, s) && Enabled(c, s, step)
    ensures OnlyGrows(s, Apply(c, s, step))
  {
    hide Sound, OnlyGrows, ClientEnabled, MonitorEnabled, ScanEnabled, ApplyClient, ApplyMonitor, ApplyScan;
    match step {
      case ByClient(x) => ClientGrows(c, s, x);
      case ByMonitor(x) => MonitorGrows(c, s, x);
      case ByScanner(x) => ScanGrows(c, s, x);
      case _ => NodesGrow(s, Apply(c, s, step));
    }
  }

  lemma GrowthComposes(s: State, t: State, u: State)
    requires OnlyGrows(s, t) && OnlyGrows(t, u)
    ensures OnlyGrows(s, u)
  {
    assert FilesAdvance(s.db, u.db) by {
      hide TablesGrow, HistoryGrows;
    }
    assert TablesGrow(s.db, u.db) by {
      hide FilesAdvance, HistoryGrows;
    }
    assert HistoryGrows(s.history, u.history) by {
      hide TablesGrow, FilesAdvance;
    }
  }

  /** Over any stretch of a run, files only move forward, a deleted file stays deleted, and rows stay. */
  lemma {:induction false} GrowsOverRun(c: Config, states: seq<State>, steps: seq<Step>, j: nat, i: nat)
    requires IsRunFromInit(c, states, steps) && j <= i < |states|
    ensures OnlyGrows(states[j], states[i])
    decreases i
  {
    hide Sound, IsRunFromInit, OnlyGrows, Enabled, Apply;
    if j == i {
      NodesGrow(states[i], states[i]);
    } else {
      RunLength(c, states, steps);
      GrowsOverRun(c, states, steps, j, i - 1);
      Safety(c, states, steps, i - 1);
      RunStep(c, states, steps, i - 1);
      Grows(c, states[i - 1], steps[i - 1]);
      GrowthComposes(states[j], states[i - 1], states[i]);
    }
  }

  lemma RunLength(c: Config, states: seq<State>, steps: seq<Step>)
    requires IsRunFromInit(c, states, steps)
    ensures |states| == |steps| + 1
  {
  }

  lemma RunStep(c: Config, states: seq<State>, steps: seq<Step>, i: nat)
    requires IsRunFromInit(c, states, steps) && i < |steps|
    ensures |states| == |steps| + 1
    ensures Enabled(c, states[i], steps[i]) && states[i + 1] == Apply(c, states[i], steps[i])
  {
  }

  /** The file was committed at some point up to state `i`. */
  ghost predicate WasCommitted(states: seq<State>, i: nat, f: string)
    requires i < |states|
  {
    exists j :: 0 <= j <= i && f in states[j].db.files && states[j].db.files[f].status == Committed
  }

  lemma CommitCommits(c: Config, s: State, q: string, m: map<string, seq<string>>, f: string)
    requires f !in s.history.everCommitted && f in ApplyCommit(c, s, q, m).history.everCommitted
    ensures f in ApplyCommit(c, s, q, m).db.files && ApplyCommit(c, s, q, m).db.files[f].status == Committed
  {
    hide Covers, RowsOf, ChunkIds;
  }

  lemma PrepareCommitsNothing(s: State, step: ClientStep, rows: seq<ChunkRow>)
    requires step.PrepareWrite? && step.client in s.clients && s.clients[step.client].Placing?
    ensures ApplyPrepare(s, step, rows).history.everCommitted == s.history.everCommitted
  {
    hide PrepareRows;
  }

  lemma ClientCommitsNothing(c: Config, s: State, step: ClientStep)
    requires ClientEnabled(c, s, step) && !step.Commit?
    ensures ApplyClient(c, s, step).history.everCommitted == s.history.everCommitted
  {
    hide PlanRows, ChunkCount, ApplyPrepare, Lists, HealthyRows;
    if step.PrepareWrite? {
      PrepareCommitsNothing(s, step, PlanRows(step.fileId, s.clients[step.client].size, c.chunkSize, step.ids));
    }
  }

  lemma RecordCommitsNothing(c: Config, s: State)
    requires ScanEnabled(s, ScanRecord)
    ensures ApplyTransfer(c, s, ScanRecord).history.everCommitted == s.history.everCommitted
  {
    hide InsertLocation;
  }

  lemma ScanCommitsNothing(c: Config, s: State, step: ScanStep)
    requires Sound(c, s) && ScanEnabled(s, step)
    ensures ApplyScan(c, s, step).history.everCommitted == s.history.everCommitted
  {
    hide Sound, ScanEnabled, ApplyTransfer, ScannerSound, Conserved;
    if step.ScanRecord? {
      RecordCommitsNothing(c, s);
    } else {
      ScanOnlyReads(c, s, step);
      hide ApplyScan;
    }
  }

  lemma OnlyCommitCommits(c: Config, s: State, step: Step)
    requires Sound(c, s) && Enabled(c, s, step) && !(step.ByClient? && step.client.Commit?)
    ensures Apply(c, s, step).history.everCommitted == s.history.everCommitted
  {
    hide Sound, ClientEnabled, ScanEnabled, ApplyClient, ApplyScan, Registry.Verdict;
    match step {
      case ByClient(x) => ClientCommitsNothing(c, s, x);
      case ByScanner(x) => ScanCommitsNothing(c, s, x);
      case _ =>
    }
  }

  lemma EverCommittedStep(c: Config, s: State, step: Step, f: string)
    requires Sound(c, s) && Enabled(c, s, step)
    requires f !in s.history.everCommitted && f in Apply(c, s, step).history.everCommitted
    ensures f in Apply(c, s, step).db.files && Apply(c, s, step).db.files[f].status == Committed
  {
    hide Sound, ApplyCommit, ApplyPrepare, ApplyMonitor, ApplyScan, MonitorEnabled, ScanEnabled;
    if step.ByClient? && step.client.Commit? {
      CommitCommits(c, s, step.client.sessionId, step.client.replicaMap, f);
    } else {
      OnlyCommitCommits(c, s, step);
    }
  }

  lemma {:induction false} EverCommittedMeans(c: Config, states: seq<State>, steps: seq<Step>, i: nat, f: string)
    requires IsRunFromInit(c, states, steps) && i < |states|
    ensures f in states[i].history.everCommitted <==> WasCommitted(states, i, f)
  {
    RunLength(c, states, steps);
    if f in states[i].history.everCommitted {
      if i > 0 {
        EverCommittedMeans(c, states, steps, i - 1, f);
        RunStep(c, states, steps, i - 1);
        if f !in states[i - 1].history.everCommitted {
          Safety(c, states, steps, i - 1);
          EverCommittedStep(c, states[i - 1], steps[i - 1], f);
        }
      }
      hide Sound, IsRunFromInit, Enabled, Apply;
    }
    if WasCommitted(states, i, f) {
      hide Sound, IsRunFromInit, Enabled, Apply;
      var j :| 0 <= j <= i && f in states[j].db.files && states[j].db.files[f].status == Committed;
      Safety(c, states, steps, j);
      CommittedIsEver(c, states[j], f);
      GrowsOverRun(c, states, steps, j, i);
    }
  }

  lemma CommittedIsEver(c: Config, s: State, f: string)
    requires Sound(c, s) && f in s.db.files && s.db.files[f].status == Committed
    ensures f in s.history.everCommitted
  {
  }

  /** Each file has exactly one session; it is finished exactly if the file was ever committed, and otherwise
      preparing. So CommitUpload never meets a preparing session of a committed file. */
  lemma SessionsCohere(c: Config, states: seq<State>, steps: seq<Step>, i: nat)
    requires IsRunFromInit(c, states, steps) && i < |states|
    ensures var db := states[i].db;
      && (forall f :: f in db.files ==> exists q :: q in db.sessions && db.sessions[q].fileId == f)
      && (forall q, p :: q in db.sessions && p in db.sessions && db.sessions[q].fileId == db.sessions[p].fileId ==> q == p)
      && (forall q :: q in db.sessions ==> db.sessions[q].fileId in db.files)
      && (forall q :: q in db.sessions ==>
            db.sessions[q].status == if WasCommitted(states, i, db.sessions[q].fileId) then Finished else Preparing)
      && (forall q :: q in db.sessions && db.sessions[q].status == Preparing
            ==> db.files[db.sessions[q].fileId].status != Committed)
  {
    Safety(c, states, steps, i);
    var db, h := states[i].db, states[i].history;
    forall f | f in db.files ensures exists q :: q in db.sessions && db.sessions[q].fileId == f {
      assert FileShape(db, h, f);
    }
    forall q | q in db.sessions
      ensures db.sessions[q].fileId in h.everCommitted <==> WasCommitted(states, i, db.sessions[q].fileId)
    {
      EverCommittedMeans(c, states, steps, i, db.sessions[q].fileId);
    }
    hide FileShape, Rows, Plans, IsRunFromInit, WasCommitted;
  }
}
