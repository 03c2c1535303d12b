/** What every reachable state of the control plane satisfies, under any interleaving. */
module ControlPlaneSafety {
  import opened Prelude
  import opened Tables
  import opened ChunkPlan
  import opened FileLifecycle
  import opened ControlPlane
  import ChunkFile
  import CopyChunk
  import Placement
  import Registry
  import Repair

  // ---- Invariants ----

  /** File `f` has the chunk rows recorded for it, and one session. */
  ghost predicate FileShape(db: Db, h: History, f: string)
    requires f in h.layout && f in h.sessionOf
  {
    && HoldsRows(db, f, h.layout[f])
    && h.sessionOf[f] in db.sessions
    && db.sessions[h.sessionOf[f]].fileId == f
  }

  /** Foreign keys; each file has its chunk rows and exactly one session. */
  ghost predicate Shape(db: Db, h: History) {
    && ForeignKeysHold(db)
    && h.layout.Keys == db.files.Keys
    && h.sessionOf.Keys == db.files.Keys
    && (forall f :: f in db.files ==> FileShape(db, h, f))
    && (forall q :: q in db.sessions ==> h.sessionOf[db.sessions[q].fileId] == q)
  }

  /** Statuses of files and sessions agree with what was ever committed. */
  ghost predicate Lifecycle(db: Db, h: History) {
    && h.everCommitted <= db.files.Keys
    && (forall f :: f in db.files ==>
          && (db.files[f].status == Pending ==> f !in h.everCommitted)
          && (db.files[f].status == Committed ==> f in h.everCommitted))
    && (forall q :: q in db.sessions ==>
          db.sessions[q].status == if db.sessions[q].fileId in h.everCommitted then Finished else Preparing)
  }

  /** Chunks of ever-committed files have at least `r` replicas, other chunks none; no empty node ID. */
  ghost predicate Rows(c: Config, db: Db, h: History) {
    && (forall x :: x in db.chunks && db.chunks[x].fileId in h.everCommitted ==> |Replicas(db, x)| >= c.r)
    && (forall x :: x in db.chunks && db.chunks[x].fileId !in h.everCommitted ==> Replicas(db, x) == {})
    && (forall l :: l in db.locations ==> l.nodeId != "")
    && (forall f :: f in h.everCommitted && f in h.layout ==> h.layout[f] != [])
  }

  /** One list of `r` different, non-empty node IDs for each of these chunks. */
  ghost predicate Acceptable(r: int, chunks: set<string>, plan: map<string, seq<string>>) {
    && plan.Keys == chunks
    && forall x :: x in plan ==> |plan[x]| == r && NoDup(plan[x]) && "" !in plan[x]
  }

  /** Every session has the placement that was returned with it, one that CommitUpload can accept. */
  ghost predicate Plans(c: Config, db: Db, h: History) {
    && h.plans.Keys == db.sessions.Keys
    && (forall q :: q in db.sessions && db.sessions[q].fileId in h.layout ==>
          Acceptable(c.r, RowIds(h.layout[db.sessions[q].fileId]), h.plans[q]))
  }

  ghost predicate NodesNamed(db: Db) {
    "" !in db.nodes
  }

  ghost predicate ClientsSound(clients: map<nat, Client>) {
    forall t :: t in clients ==>
      match clients[t]
      case Placing(_, _, nodes) => forall i :: 0 <= i < |nodes| ==> nodes[i].id != ""
      case Deleting(_) => true
      case Beating(n, _, _) => n != ""
      case Inserting(n, _, _) => n != ""
  }

  /** The scanner's list holds only chunks of ever-committed files, and the locations it read are still the rows. */
  ghost predicate ScannerSound(db: Db, h: History, k: Scanner) {
    k.Scanning? ==>
      && (forall i :: k.index <= i < |k.chunks| ==>
            k.chunks[i] in db.chunks && db.chunks[k.chunks[i]].fileId in h.everCommitted)
      && (!k.phase.Next? ==>
            && k.index < |k.chunks|
            && NoDup(k.locations)
            && Elems(k.locations) == Replicas(db, k.chunks[k.index]))
      && (k.phase.Gathering? || k.phase.Looking? ==>
            forall i :: 0 <= i < |k.phase.replicas| ==> k.phase.replicas[i].id in k.locations)
      && (k.phase.Choosing? || Copying(k.phase) ==> k.phase.source.id in k.locations)
      && (Copying(k.phase) ==> k.phase.target.id !in k.locations && k.phase.target.id != "")
  }

  /** Every location row was inserted by a commit or a successful repair; every attempt is accounted for. */
  ghost predicate Conserved(db: Db, h: History, k: Scanner) {
    && |db.locations| == h.commitRows + h.successes
    && h.attempts == h.successes + h.failures + h.lost + if k.Scanning? && Copying(k.phase) then 1 else 0
  }

  ghost predicate DataSound(c: Config, db: Db, h: History) {
    Shape(db, h) && Lifecycle(db, h) && Rows(c, db, h) && Plans(c, db, h) && NodesNamed(db)
  }

  ghost predicate Sound(c: Config, s: State) {
    && DataSound(c, s.db, s.history)
    && ClientsSound(s.clients)
    && ScannerSound(s.db, s.history, s.scanner)
    && Conserved(s.db, s.history, s.scanner)
  }

  // ---- Frames ----

  /** Chunk rows of a file stay what they are while no chunk of that file is added. */
  lemma RowsHeld(db: Db, d: Db, f: string, rows: seq<ChunkRow>)
    requires HoldsRows(db, f, rows)
    requires forall x :: x in db.chunks ==> x in d.chunks && d.chunks[x] == db.chunks[x]
    requires forall x :: x in d.chunks && x !in db.chunks ==> d.chunks[x].fileId != f
    ensures HoldsRows(d, f, rows)
  {
    assert ChunkIds(d, f) == ChunkIds(db, f);
  }

  lemma SameReplicas(db: Db, d: Db)
    requires d.locations == db.locations
    ensures forall x :: Replicas(d, x) == Replicas(db, x)
  {
  }

  lemma ShapeKeys(db: Db, h: History)
    requires Shape(db, h)
    ensures ForeignKeysHold(db) && h.layout.Keys == h.sessionOf.Keys == db.files.Keys
  {
  }

  /** Steps that add no file, chunk or session keep the shape. */
  lemma ShapeHeld(db: Db, h: History, d: Db, h': History)
    requires Shape(db, h) && h'.layout == h.layout && h'.sessionOf == h.sessionOf
    requires d.chunks == db.chunks && d.files.Keys == db.files.Keys && d.sessions.Keys == db.sessions.Keys
    requires forall q :: q in db.sessions ==> d.sessions[q].fileId == db.sessions[q].fileId
    requires forall l :: l in d.locations ==> l.chunkId in db.chunks
    ensures Shape(d, h')
  {
    hide HoldsRows;
    forall f | f in d.files ensures FileShape(d, h', f) {
      assert FileShape(db, h, f);
      RowsHeld(db, d, f, h.layout[f]);
    }
  }

  // ---- Prepare ----

  lemma PreparedShape(db: Db, h: History, f: string, q: string, name: string, size: int, rows: seq<ChunkRow>, d: Db, h': History)
    requires Shape(db, h)
    requires f !in db.files && q !in db.sessions && Prepared(db, f, q, name, size, rows, d)
    requires h'.layout == h.layout[f := rows] && h'.sessionOf == h.sessionOf[f := q]
    ensures Shape(d, h')
  {
    hide Shape, HoldsRows, RowIds, ForeignKeysHold, FileShape, Prepared;
    ShapeKeys(db, h);
    NewRowsRefer(db, f, q, name, size, rows, d);
    OldFilesKept(db, h, f, q, name, size, rows, d, h');
    NewFileShape(db, f, q, name, size, rows, d, h');
    ShapeExtended(db, h, f, q, d, h');
  }

  lemma NewFileShape(db: Db, f: string, q: string, name: string, size: int, rows: seq<ChunkRow>, d: Db, h': History)
    requires Prepared(db, f, q, name, size, rows, d)
    requires f in h'.layout && h'.layout[f] == rows && f in h'.sessionOf && h'.sessionOf[f] == q
    ensures FileShape(d, h', f)
    ensures d.files.Keys == db.files.Keys + {f} && d.sessions == db.sessions[q := Session(f, Preparing)]
  {
    hide HoldsRows, RowIds;
  }

  /** One more file with one session of its own. */
  lemma ShapeExtended(db: Db, h: History, f: string, q: string, d: Db, h': History)
    requires Shape(db, h) && ForeignKeysHold(d) && f !in db.files
    requires forall p :: p in db.sessions ==> db.sessions[p].fileId in db.files
    requires d.files.Keys == db.files.Keys + {f} && d.sessions == db.sessions[q := Session(f, Preparing)]
    requires h'.layout.Keys == d.files.Keys && h'.sessionOf == h.sessionOf[f := q]
    requires forall g :: g in d.files ==> FileShape(d, h', g)
    ensures Shape(d, h')
  {
    hide FileShape, ForeignKeysHold;
  }

  lemma OldFilesKept(db: Db, h: History, f: string, q: string, name: string, size: int, rows: seq<ChunkRow>, d: Db, h': History)
    requires Shape(db, h)
    requires f !in db.files && q !in db.sessions && Prepared(db, f, q, name, size, rows, d)
    requires h'.layout == h.layout[f := rows] && h'.sessionOf == h.sessionOf[f := q]
    ensures forall g :: g in db.files ==> FileShape(d, h', g)
  {
    NewChunksOf(db, f, q, name, size, rows, d);
    hide HoldsRows, RowIds, ForeignKeysHold;
    forall g | g in db.files ensures FileShape(d, h', g) {
      assert FileShape(db, h, g);
      RowsHeld(db, d, g, h.layout[g]);
    }
  }

  lemma NewRowsRefer(db: Db, f: string, q: string, name: string, size: int, rows: seq<ChunkRow>, d: Db)
    requires ForeignKeysHold(db) && Prepared(db, f, q, name, size, rows, d)
    ensures ForeignKeysHold(d) && forall p :: p in db.sessions ==> db.sessions[p].fileId in db.files
  {
    NewChunksOf(db, f, q, name, size, rows, d);
    hide HoldsRows, RowIds;
  }

  lemma NewChunksOf(db: Db, f: string, q: string, name: string, size: int, rows: seq<ChunkRow>, d: Db)
    requires Prepared(db, f, q, name, size, rows, d)
    ensures forall x :: x in d.chunks && x !in db.chunks ==> d.chunks[x].fileId == f
  {
    forall x | x in d.chunks && x !in db.chunks ensures d.chunks[x].fileId == f {
      assert x in ChunkIds(d, f);
    }
  }

  lemma PreparedRows(c: Config, db: Db, h: History, f: string, q: string, name: string, size: int, rows: seq<ChunkRow>, d: Db, h': History)
    requires Shape(db, h) && Lifecycle(db, h) && Rows(c, db, h)
    requires f !in db.files && Prepared(db, f, q, name, size, rows, d)
    requires h'.everCommitted == h.everCommitted && h'.layout == h.layout[f := rows]
    ensures Rows(c, d, h')
  {
    hide HoldsRows, FileShape, RowIds, Replicas;
    NewChunksOf(db, f, q, name, size, rows, d);
    RowsExtended(c, db, h, f, rows, d, h');
  }

  /** New chunks of a file that was never committed have no rows. */
  lemma RowsExtended(c: Config, db: Db, h: History, f: string, rows: seq<ChunkRow>, d: Db, h': History)
    requires Rows(c, db, h) && ForeignKeysHold(db) && f !in h.everCommitted && d.locations == db.locations
    requires forall x :: x in db.chunks ==> x in d.chunks && d.chunks[x] == db.chunks[x]
    requires forall x :: x in d.chunks && x !in db.chunks ==> d.chunks[x].fileId == f
    requires h'.everCommitted == h.everCommitted && h'.layout == h.layout[f := rows]
    ensures Rows(c, d, h')
  {
    SameReplicas(db, d);
    forall x | x in d.chunks && x !in db.chunks ensures Replicas(d, x) == {} {
      NoRowsYet(db, x);
    }
    hide Replicas;
  }

  lemma NoRowsYet(db: Db, x: string)
    requires ForeignKeysHold(db) && x !in db.chunks
    ensures Replicas(db, x) == {}
  {
  }

  lemma PreparedLifecycle(db: Db, h: History, f: string, q: string, name: string, size: int, rows: seq<ChunkRow>, d: Db, h': History)
    requires Shape(db, h) && Lifecycle(db, h)
    requires f !in db.files && q !in db.sessions && Prepared(db, f, q, name, size, rows, d)
    requires h'.everCommitted == h.everCommitted
    ensures Lifecycle(d, h')
  {
    hide HoldsRows, FileShape, RowIds;
    assert ForeignKeysHold(db);
  }

  lemma PreparedPlans(c: Config, db: Db, h: History, f: string, q: string, name: string, size: int,
    rows: seq<ChunkRow>, plan: map<string, seq<string>>, d: Db, h': History)
    requires Shape(db, h) && Plans(c, db, h)
    requires f !in db.files && q !in db.sessions && Prepared(db, f, q, name, size, rows, d)
    requires h'.layout == h.layout[f := rows] && h'.plans == h.plans[q := plan]
    requires Acceptable(c.r, RowIds(rows), plan)
    ensures Plans(c, d, h')
  {
    hide HoldsRows, FileShape, RowIds, Acceptable;
    assert forall p :: p in db.sessions ==> db.sessions[p].fileId != f;
  }

  lemma PreparedScanner(db: Db, h: History, f: string, q: string, name: string, size: int, rows: seq<ChunkRow>, d: Db, h': History, k: Scanner)
    requires ScannerSound(db, h, k) && Prepared(db, f, q, name, size, rows, d) && h'.everCommitted == h.everCommitted
    ensures ScannerSound(d, h', k)
  {
    SameReplicas(db, d);
  }

  lemma PlanAcceptable(c: Config, nodes: seq<NodeRow>, ids: set<string>, plan: map<string, seq<string>>)
    requires Placement.ValidPlacement(c.r, ids, nodes, plan) && forall i :: 0 <= i < |nodes| ==> nodes[i].id != ""
    ensures Acceptable(c.r, ids, plan)
  {
    assert !Placement.NodeNamed(nodes, "");
  }

  lemma PrepareKeeps(c: Config, s: State, step: ClientStep, rows: seq<ChunkRow>)
    requires Sound(c, s) && step.PrepareWrite? && step.client in s.clients && s.clients[step.client].Placing?
    requires Placement.ValidPlacement(c.r, RowIds(rows), s.clients[step.client].nodes, step.plan)
    requires forall i :: 0 <= i < |rows| ==> rows[i].chunk.fileId == step.fileId && rows[i].chunk.index == i
    ensures Sound(c, ApplyPrepare(s, step, rows))
  {
    hide Shape, Lifecycle, Rows, Plans, ScannerSound, RowIds, Acceptable, Placement.ValidPlacement;
    var k := s.clients[step.client];
    var s' := ApplyPrepare(s, step, rows);
    assert ForeignKeysHold(s.db) by {
      ShapeKeys(s.db, s.history);
    }
    PrepareExact(s.db, step.fileId, step.sessionId, k.name, k.size, rows);
    PlanAcceptable(c, k.nodes, RowIds(rows), step.plan);
    var r := PrepareRows(s.db, step.fileId, step.sessionId, k.name, k.size, rows);
    if r.Ok? {
      var f, q, d, h' := step.fileId, step.sessionId, r.value, s'.history;
      PreparedShape(s.db, s.history, f, q, k.name, k.size, rows, d, h');
      PreparedRows(c, s.db, s.history, f, q, k.name, k.size, rows, d, h');
      PreparedLifecycle(s.db, s.history, f, q, k.name, k.size, rows, d, h');
      PreparedPlans(c, s.db, s.history, f, q, k.name, k.size, rows, step.plan, d, h');
      PreparedScanner(s.db, s.history, f, q, k.name, k.size, rows, d, h', s.scanner);
    }
  }

  // ---- Commit ----

  lemma RowsOfChunk(m: map<string, seq<string>>, x: string)
    ensures (set l | l in RowsOf(m) && l.chunkId == x :: l.nodeId) == if x in m then Elems(m[x]) else {}
  {
    if x in m {
      forall n | n in m[x] ensures n in set l | l in RowsOf(m) && l.chunkId == x :: l.nodeId {
        assert Location(x, n) in RowsOf(m);
      }
    }
  }

  lemma CommittedReplicas(c: Config, db: Db, q: string, m: map<string, seq<string>>, x: string)
    requires CommitWrites(db, c.r, q, m)
    ensures Replicas(AfterCommit(db, c.r, q, m), x) == Replicas(db, x) + if x in m then Elems(m[x]) else {}
  {
    var d := AfterCommit(db, c.r, q, m);
    ReplicasAfterInsert(db, RowsOf(m), x);
    RowsOfChunk(m, x);
    SameReplicas(db.(locations := db.locations + RowsOf(m)), d);
  }

  /** A commit adds no file, chunk or session, and no session changes its file. */
  lemma CommitFrame(c: Config, db: Db, q: string, m: map<string, seq<string>>)
    requires CommitWrites(db, c.r, q, m)
    ensures var d := AfterCommit(db, c.r, q, m);
            && d.files.Keys == db.files.Keys && d.sessions.Keys == db.sessions.Keys
            && forall p :: p in db.sessions ==> d.sessions[p].fileId == db.sessions[p].fileId
  {
    hide Covers, RowsOf, ChunkIds;
  }

  lemma CommitKeepsShape(c: Config, db: Db, h: History, q: string, m: map<string, seq<string>>, h': History)
    requires Shape(db, h) && CommitWrites(db, c.r, q, m)
    requires h'.layout == h.layout && h'.sessionOf == h.sessionOf
    ensures Shape(AfterCommit(db, c.r, q, m), h')
  {
    CommittedNames(c, db, q, m);
    CommitFrame(c, db, q, m);
    hide CommitWrites, AfterCommit, FileShape;
    ShapeHeld(db, h, AfterCommit(db, c.r, q, m), h');
  }

  lemma CommitKeepsLifecycle(c: Config, db: Db, h: History, q: string, m: map<string, seq<string>>, h': History)
    requires Shape(db, h) && Lifecycle(db, h) && Plans(c, db, h) && CommitWrites(db, c.r, q, m)
    requires h' == h.(everCommitted := h.everCommitted + {db.sessions[q].fileId}, commitRows := h'.commitRows)
    ensures Lifecycle(AfterCommit(db, c.r, q, m), h') && Plans(c, AfterCommit(db, c.r, q, m), h')
  {
    hide FileShape, Covers, ChunkIds, RowsOf, RowIds, NoDup, Acceptable, ForeignKeysHold;
    var d, f := AfterCommit(db, c.r, q, m), db.sessions[q].fileId;
    forall p | p in db.sessions && db.sessions[p].fileId == f ensures p == q {
      assert h.sessionOf[f] == p;
    }
    assert Plans(c, d, h') by {
      hide Shape, Lifecycle;
    }
    hide Plans, Shape;
  }

  lemma CommitKeepsRows(c: Config, db: Db, h: History, q: string, m: map<string, seq<string>>, h': History)
    requires Shape(db, h) && Lifecycle(db, h) && Rows(c, db, h) && CommitWrites(db, c.r, q, m)
    requires h' == h.(everCommitted := h.everCommitted + {db.sessions[q].fileId}, commitRows := h'.commitRows)
    ensures Rows(c, AfterCommit(db, c.r, q, m), h')
  {
    var d, f := AfterCommit(db, c.r, q, m), db.sessions[q].fileId;
    forall x | x in db.chunks
      ensures db.chunks[x].fileId == f ==> |Replicas(d, x)| >= c.r
      ensures db.chunks[x].fileId != f ==> Replicas(d, x) == Replicas(db, x)
    {
      CommitFills(c, db, q, m, x);
    }
    CommittedNonEmpty(c, db, h, q, m);
    CommittedNames(c, db, q, m);
    RowsAfterCommit(c, db, h, f, d, h');
  }

  lemma RowsAfterCommit(c: Config, db: Db, h: History, f: string, d: Db, h': History)
    requires Rows(c, db, h) && d.chunks == db.chunks && f in h.layout && h.layout[f] != []
    requires forall x :: x in db.chunks && db.chunks[x].fileId == f ==> |Replicas(d, x)| >= c.r
    requires forall x :: x in db.chunks && db.chunks[x].fileId != f ==> Replicas(d, x) == Replicas(db, x)
    requires forall l :: l in d.locations ==> l in db.locations || l.nodeId != ""
    requires h'.everCommitted == h.everCommitted + {f} && h'.layout == h.layout
    ensures Rows(c, d, h')
  {
    hide Replicas;
  }

  lemma CommittedNonEmpty(c: Config, db: Db, h: History, q: string, m: map<string, seq<string>>)
    requires Shape(db, h) && CommitWrites(db, c.r, q, m)
    ensures db.sessions[q].fileId in h.layout && h.layout[db.sessions[q].fileId] != []
  {
    var f := db.sessions[q].fileId;
    assert FileShape(db, h, f);
    var x :| x in ChunkIds(db, f);
    assert x in RowIds(h.layout[f]);
  }

  lemma CommittedNames(c: Config, db: Db, q: string, m: map<string, seq<string>>)
    requires CommitWrites(db, c.r, q, m)
    ensures AfterCommit(db, c.r, q, m).chunks == db.chunks
    ensures forall l :: l in AfterCommit(db, c.r, q, m).locations ==>
      l in db.locations || (l.nodeId != "" && l.chunkId in db.chunks)
  {
    assert AfterCommit(db, c.r, q, m).locations == db.locations + RowsOf(m);
  }

  /** Chunks of the committed file get the nodes of their list, other chunks nothing. */
  lemma CommitFills(c: Config, db: Db, q: string, m: map<string, seq<string>>, x: string)
    requires CommitWrites(db, c.r, q, m) && x in db.chunks
    ensures var d, f := AfterCommit(db, c.r, q, m), db.sessions[q].fileId;
            && (db.chunks[x].fileId == f ==> |Replicas(d, x)| >= c.r)
            && (db.chunks[x].fileId != f ==> Replicas(d, x) == Replicas(db, x))
  {
    var d, f := AfterCommit(db, c.r, q, m), db.sessions[q].fileId;
    CommittedReplicas(c, db, q, m, x);
    hide AfterCommit, Replicas;
    if db.chunks[x].fileId == f {
      assert x in ChunkIds(db, f);
      NoDupCardinality(m[x]);
      SubsetCardinality(Elems(m[x]), Replicas(d, x));
    } else {
      assert x !in ChunkIds(db, f);
    }
  }

  lemma CommitKeepsScanner(c: Config, db: Db, h: History, q: string, m: map<string, seq<string>>, h': History, k: Scanner)
    requires Lifecycle(db, h) && CommitWrites(db, c.r, q, m) && ScannerSound(db, h, k)
    requires h' == h.(everCommitted := h.everCommitted + {db.sessions[q].fileId}, commitRows := h'.commitRows)
    ensures ScannerSound(AfterCommit(db, c.r, q, m), h', k)
  {
    if k.Scanning? && !k.phase.Next? {
      var x := k.chunks[k.index];
      CommittedReplicas(c, db, q, m, x);
      assert x !in ChunkIds(db, db.sessions[q].fileId);
    }
  }

  lemma WritesCommittable(db: Db, r: int, q: string, m: map<string, seq<string>>)
    requires CommitWrites(db, r, q, m)
    ensures Committable(db, q)
  {
  }

  /** A commit never touches a chunk of a file that was committed before. */
  lemma CommitKeeps(c: Config, s: State, q: string, m: map<string, seq<string>>)
    requires Sound(c, s)
    ensures Sound(c, ApplyCommit(c, s, q, m))
  {
    hide Shape, Lifecycle, Rows, Plans, ScannerSound, Conserved, CommitWrites, RowsOf;
    if CommitWrites(s.db, c.r, q, m) {
      WritesCommittable(s.db, c.r, q, m);
      var s' := ApplyCommit(c, s, q, m);
      CommitKeepsShape(c, s.db, s.history, q, m, s'.history);
      CommitKeepsLifecycle(c, s.db, s.history, q, m, s'.history);
      CommitKeepsRows(c, s.db, s.history, q, m, s'.history);
      CommitKeepsScanner(c, s.db, s.history, q, m, s'.history, s.scanner);
      CommitKeepsCount(c, s.db, s.history, q, m, s'.history, s.scanner);
    }
  }

  lemma CommitKeepsCount(c: Config, db: Db, h: History, q: string, m: map<string, seq<string>>, h': History, k: Scanner)
    requires CommitWrites(db, c.r, q, m) && Conserved(db, h, k)
    requires h' == h.(everCommitted := h'.everCommitted, commitRows := h.commitRows + |RowsOf(m)|)
    ensures Conserved(AfterCommit(db, c.r, q, m), h', k)
  {
    assert |db.locations + RowsOf(m)| == |db.locations| + |RowsOf(m)|;
    assert AfterCommit(db, c.r, q, m).locations == db.locations + RowsOf(m);
  }

  // ---- Deletes, nodes, and repair rows ----

  /** Rows, plans and the scanner look at chunks, locations and sessions only. */
  lemma RestHeld(c: Config, db: Db, h: History, d: Db, h': History, k: Scanner)
    requires Rows(c, db, h) && Plans(c, db, h) && ScannerSound(db, h, k) && Conserved(db, h, k)
    requires d.chunks == db.chunks && d.locations == db.locations && d.sessions == db.sessions
    requires h' == h.(beatAt := h'.beatAt)
    ensures Rows(c, d, h') && Plans(c, d, h') && ScannerSound(d, h', k) && Conserved(d, h', k)
  {
    SameReplicas(db, d);
    hide Replicas, Acceptable, RowIds, NoDup;
  }

  lemma DeletedLifecycle(db: Db, h: History, f: string)
    requires Lifecycle(db, h)
    ensures Lifecycle(SetFileStatus(db, f, Deleted), h)
  {
  }

  lemma DeleteKeeps(c: Config, db: Db, h: History, f: string, k: Scanner)
    requires DataSound(c, db, h) && ScannerSound(db, h, k) && Conserved(db, h, k)
    ensures DataSound(c, SetFileStatus(db, f, Deleted), h)
    ensures ScannerSound(SetFileStatus(db, f, Deleted), h, k) && Conserved(SetFileStatus(db, f, Deleted), h, k)
  {
    var d := SetFileStatus(db, f, Deleted);
    hide Lifecycle, Rows, Plans, ScannerSound, Conserved, FileShape;
    assert Shape(d, h) by {
      ShapeHeld(db, h, d, h);
    }
    RestHeld(c, db, h, d, h, k);
    DeletedLifecycle(db, h, f);
  }

  lemma NodesKeep(c: Config, db: Db, h: History, d: Db, h': History, k: Scanner)
    requires DataSound(c, db, h) && ScannerSound(db, h, k) && Conserved(db, h, k)
    requires d == db.(nodes := d.nodes) && NodesNamed(d) && h' == h.(beatAt := h'.beatAt)
    ensures DataSound(c, d, h') && ScannerSound(d, h', k) && Conserved(d, h', k)
  {
    hide Rows, Plans, ScannerSound, Conserved, FileShape;
    assert Shape(d, h') by {
      ShapeHeld(db, h, d, h');
    }
    RestHeld(c, db, h, d, h', k);
  }

  lemma RecordKeeps(c: Config, db: Db, h: History, x: string, n: string, d: Db, h': History)
    requires DataSound(c, db, h) && x in db.chunks && db.chunks[x].fileId in h.everCommitted && n != ""
    requires d == db.(locations := db.locations + {Location(x, n)}) && h' == h.(successes := h'.successes)
    ensures DataSound(c, d, h')
  {
    hide FileShape, RowIds, NoDup, Acceptable;
    ShapeHeld(db, h, d, h');
    hide Shape;
    RecordKeepsRows(c, db, h, x, n, d, h');
    hide Rows;
  }

  lemma RecordKeepsRows(c: Config, db: Db, h: History, x: string, n: string, d: Db, h': History)
    requires Rows(c, db, h) && x in db.chunks && db.chunks[x].fileId in h.everCommitted && n != ""
    requires d == db.(locations := db.locations + {Location(x, n)}) && h' == h.(successes := h'.successes)
    ensures Rows(c, d, h')
  {
    Repair.RowAdded(db, d, x, n);
    SubsetCardinality(Replicas(db, x), Replicas(d, x));
    hide Replicas;
  }

  // ---- Every step ----

  lemma HealthyNamesListed(db: Db, nodes: seq<NodeRow>)
    requires NodesNamed(db) && Lists(nodes, HealthyRows(db))
    ensures forall i :: 0 <= i < |nodes| ==> nodes[i].id != "" && nodes[i].id in HealthyIds(db)
  {
    forall i | 0 <= i < |nodes| ensures nodes[i].id in HealthyIds(db) {
      assert nodes[i] in Elems(nodes);
    }
  }

  lemma PlannedRows(f: string, size: int, chunkSize: int, ids: seq<string>)
    ensures RowIds(PlanRows(f, size, chunkSize, ids)) == Elems(ids)
    ensures forall i :: 0 <= i < |ids| ==>
      PlanRows(f, size, chunkSize, ids)[i].chunk.fileId == f && PlanRows(f, size, chunkSize, ids)[i].chunk.index == i
  {
    var rows := PlanRows(f, size, chunkSize, ids);
    forall x | x in ids ensures x in RowIds(rows) {
      var i :| 0 <= i < |ids| && ids[i] == x;
      assert rows[i] in rows;
    }
  }

  lemma BeatKeeps(c: Config, s: State, step: ClientStep)
    requires Sound(c, s) && ClientEnabled(c, s, step) && (step.BeatUpdate? || step.BeatInsert?)
    ensures Sound(c, ApplyClient(c, s, step))
  {
    hide Shape, Lifecycle, Rows, Plans, ScannerSound, Conserved;
    var s' := ApplyClient(c, s, step);
    NodesKeep(c, s.db, s.history, s'.db, s'.history, s.scanner);
  }

  lemma ClientKeeps(c: Config, s: State, step: ClientStep)
    requires Sound(c, s) && ClientEnabled(c, s, step)
    ensures Sound(c, ApplyClient(c, s, step))
  {
    hide Shape, Lifecycle, Rows, Plans, ScannerSound, Conserved, ChunkCount, PlanRows, RowIds, ApplyPrepare, ApplyCommit;
    match step {
      case PrepareList(_, _, _, nodes) => HealthyNamesListed(s.db, nodes);
      case PrepareWrite(t, f, _, ids, _) =>
        var rows := PlanRows(f, s.clients[t].size, c.chunkSize, ids);
        PlannedRows(f, s.clients[t].size, c.chunkSize, ids);
        PlannedLength(f, s.clients[t].size, c.chunkSize, ids);
        PrepareKeeps(c, s, step, rows);
      case Commit(q, m) => CommitKeeps(c, s, q, m);
      case DeleteWrite(t) => DeleteKeeps(c, s.db, s.history, s.clients[t].fileId, s.scanner);
      case BeatUpdate(_) => BeatKeeps(c, s, step);
      case BeatInsert(_) => BeatKeeps(c, s, step);
      case _ =>
    }
  }

  lemma PlannedLength(f: string, size: int, chunkSize: int, ids: seq<string>)
    ensures |PlanRows(f, size, chunkSize, ids)| == |ids|
  {
  }

  lemma MonitorKeeps(c: Config, s: State, step: MonitorStep)
    requires Sound(c, s) && MonitorEnabled(s, step)
    ensures Sound(c, ApplyMonitor(c, s, step))
  {
    hide Shape, Lifecycle, Rows, Plans, ScannerSound, Conserved, Registry.Verdict;
    var s' := ApplyMonitor(c, s, step);
    NodesKeep(c, s.db, s.history, s'.db, s'.history, s.scanner);
  }

  lemma {:induction false} FindFound(nodes: seq<NodeRow>, id: string)
    ensures Find(nodes, id).Some? ==> Find(nodes, id).value.id == id && Find(nodes, id).value in nodes
  {
    if nodes != [] && nodes[0].id != id {
      FindFound(nodes[1..], id);
    }
  }

  /** What a scanner step other than recording does: nothing to the tables, and the bookkeeping stays right. */
  ghost predicate ReadsOnly(s: State, s': State) {
    && s'.db == s.db && s'.clients == s.clients
    && s'.history == s.history.(attempts := s'.history.attempts, failures := s'.history.failures)
    && ScannerSound(s.db, s.history, s'.scanner)
    && Conserved(s.db, s'.history, s'.scanner)
  }

  ghost predicate ScanReady(s: State) {
    ScannerSound(s.db, s.history, s.scanner) && Conserved(s.db, s.history, s.scanner)
  }

  lemma ScanListReads(c: Config, s: State, chunks: seq<string>)
    requires ScanReady(s) && Lifecycle(s.db, s.history) && ScanEnabled(s, ScanList(chunks))
    ensures ReadsOnly(s, ApplyScan(c, s, ScanList(chunks)))
  {
    forall i | 0 <= i < |chunks| ensures chunks[i] in CommittedChunks(s.db) {
      assert chunks[i] in Elems(chunks);
    }
  }

  lemma ScanLocationsReads(c: Config, s: State, q: seq<string>)
    requires ScanReady(s) && ScanEnabled(s, ScanLocations(q))
    ensures ReadsOnly(s, ApplyScan(c, s, ScanLocations(q)))
  {
    hide Replicas;
  }

  lemma ScanLookReads(c: Config, s: State, nodes: seq<NodeRow>)
    requires ScanReady(s) && ScanEnabled(s, ScanLook(nodes))
    ensures ReadsOnly(s, ApplyScan(c, s, ScanLook(nodes)))
  {
    hide Replicas, Elems, NoDup, HealthyRows;
    FindFound(nodes, s.scanner.locations[s.scanner.phase.next]);
  }

  lemma ScanChooseReads(c: Config, s: State, nodes: seq<NodeRow>)
    requires ScanReady(s) && NodesNamed(s.db) && ScanEnabled(s, ScanChoose(nodes))
    ensures ReadsOnly(s, ApplyScan(c, s, ScanChoose(nodes)))
  {
    hide Replicas, Repair.FirstWithout, HealthyRows;
    Repair.FirstWithoutFound(nodes, Elems(s.scanner.locations));
    HealthyNamesListed(s.db, nodes);
  }

  lemma SkipReads(s: State)
    requires ScanReady(s) && AtChunk(s.scanner) && !Copying(s.scanner.phase)
    ensures ReadsOnly(s, s.(scanner := Advance(s.scanner)))
  {
    hide Replicas, Elems, NoDup;
  }

  lemma FailedReads(s: State)
    requires ScanReady(s) && AtChunk(s.scanner) && Copying(s.scanner.phase)
    ensures ReadsOnly(s, Failed(s))
  {
    hide Replicas, Elems, NoDup;
  }

  /** Counting or gathering goes on with the replicas found so far. */
  lemma GoesOnReads(s: State, phase: Phase)
    requires ScanReady(s) && AtChunk(s.scanner) && (phase.Counting? || phase.Gathering?)
    requires s.scanner.phase.Counting? || s.scanner.phase.Gathering? || s.scanner.phase.Looking?
    requires phase.Gathering? ==> !s.scanner.phase.Counting? && phase.replicas == s.scanner.phase.replicas
    ensures ReadsOnly(s, s.(scanner := s.scanner.(phase := phase)))
  {
    hide Replicas, Elems, NoDup;
  }

  lemma ScanGlitchReads(c: Config, s: State)
    requires ScanReady(s) && ScanEnabled(s, ScanGlitch)
    ensures ReadsOnly(s, ApplyGlitch(s))
  {
    hide ScanReady, ReadsOnly, Advance, Failed;
    match s.scanner.phase {
      case Next => SkipReads(s);
      case Choosing(_) => SkipReads(s);
      case Counting(i, h) => GoesOnReads(s, Counting(i + 1, h));
      case Gathering(i, q) => GoesOnReads(s, Gathering(i + 1, q));
      case Looking(i, q) => GoesOnReads(s, Gathering(i + 1, q));
      case _ => FailedReads(s);
    }
  }

  lemma ScanHealthReads(c: Config, s: State)
    requires ScanReady(s) && ScanEnabled(s, ScanHealth)
    ensures ReadsOnly(s, ApplyHealth(s))
  {
    hide Replicas, Elems, NoDup, HealthyIds;
  }

  lemma ScanDecideReads(c: Config, s: State)
    requires ScanReady(s) && ScanEnabled(s, ScanDecide)
    ensures ReadsOnly(s, ApplyDecide(c, s))
  {
    hide Replicas, Elems, NoDup;
  }

  lemma ScanTransferReads(c: Config, s: State, step: ScanStep)
    requires ScanReady(s) && ScanEnabled(s, step) && (step.ScanFetch? || step.ScanStore?)
    ensures ReadsOnly(s, ApplyTransfer(c, s, step))
  {
    hide Replicas, Elems, NoDup, CopyChunk.Read, ChunkFile.PutChunk;
  }

  lemma ScanReads(c: Config, s: State, step: ScanStep)
    requires ScanReady(s) && NodesNamed(s.db) && Lifecycle(s.db, s.history)
    requires ScanEnabled(s, step) && !step.ScanRecord?
    ensures ReadsOnly(s, ApplyScan(c, s, step))
  {
    hide Lifecycle, NodesNamed, ReadsOnly, ScanReady, ScanEnabled;
    match step {
      case ScanList(chunks) => ScanListReads(c, s, chunks);
      case ScanEnd => ScanEndReads(c, s);
      case ScanLocations(q) => ScanLocationsReads(c, s, q);
      case ScanLook(nodes) => ScanLookReads(c, s, nodes);
      case ScanChoose(nodes) => ScanChooseReads(c, s, nodes);
      case ScanHealth => ScanHealthReads(c, s);
      case ScanDecide => ScanDecideReads(c, s);
      case ScanGlitch => ScanGlitchReads(c, s);
      case _ => ScanTransferReads(c, s, step);
    }
  }

  lemma SoundIsReady(c: Config, s: State)
    requires Sound(c, s)
    ensures ScanReady(s) && NodesNamed(s.db) && Lifecycle(s.db, s.history)
  {
    hide Shape, Lifecycle, Rows, Plans, NodesNamed, ClientsSound, ScannerSound, Conserved;
  }

  /** Every repair step but the last only reads the tables, and keeps the scanner sound. */
  lemma ScanOnlyReads(c: Config, s: State, step: ScanStep)
    requires Sound(c, s) && ScanEnabled(s, step) && !step.ScanRecord?
    ensures ReadsOnly(s, ApplyScan(c, s, step))
  {
    hide Sound, ScanReady, NodesNamed, Lifecycle, ScanEnabled, ApplyScan, ReadsOnly;
    SoundIsReady(c, s);
    ScanReads(c, s, step);
  }

  lemma ScanEndReads(c: Config, s: State)
    requires ScanReady(s) && ScanEnabled(s, ScanEnd)
    ensures ReadsOnly(s, ApplyScan(c, s, ScanEnd))
  {
  }

  /** Recording inserts a row that no constraint rejects. */
  lemma RecordingFits(db: Db, h: History, k: Scanner)
    requires ScannerSound(db, h, k) && k.Scanning? && k.phase.Recording?
    ensures k.index < |k.chunks|
    ensures InsertLocation(db, Location(k.chunks[k.index], k.phase.target.id)).Ok?
  {
    LocationIsReplica(db, k.chunks[k.index], k.phase.target.id);
  }

  lemma ScanRecords(c: Config, s: State)
    requires Sound(c, s) && ScanEnabled(s, ScanRecord)
    ensures Sound(c, ApplyScan(c, s, ScanRecord))
  {
    hide Shape, Lifecycle, Rows, Plans, Replicas, Elems, NoDup;
    var k := s.scanner;
    RecordingFits(s.db, s.history, k);
    var s' := ApplyScan(c, s, ScanRecord);
    var l := Location(k.chunks[k.index], k.phase.target.id);
    assert |s.db.locations + {l}| == |s.db.locations| + 1;
    RecordKeeps(c, s.db, s.history, l.chunkId, l.nodeId, s'.db, s'.history);
  }

  lemma ScanKeeps(c: Config, s: State, step: ScanStep)
    requires Sound(c, s) && ScanEnabled(s, step)
    ensures Sound(c, ApplyScan(c, s, step))
  {
    if step.ScanRecord? {
      ScanRecords(c, s);
    } else {
      hide Shape, Lifecycle, Rows, Plans, ScannerSound, Conserved, ClientsSound, ScanEnabled, ApplyScan;
      ScanOnlyReads(c, s, step);
      var s' := ApplyScan(c, s, step);
      HistoryRest(c, s.db, s.history, s'.history, s'.scanner);
    }
  }

  lemma HistoryRest(c: Config, db: Db, h: History, h': History, k: Scanner)
    requires DataSound(c, db, h) && ScannerSound(db, h, k)
    requires h' == h.(attempts := h'.attempts, failures := h'.failures, lost := h'.lost)
    ensures DataSound(c, db, h') && ScannerSound(db, h', k)
  {
    hide HoldsRows, RowIds, NoDup, Acceptable, Replicas;
    assert forall f :: f in db.files ==> FileShape(db, h, f) && FileShape(db, h', f);
  }

  lemma SoundStep(c: Config, s: State, step: Step)
    requires Sound(c, s) && Enabled(c, s, step)
    ensures Sound(c, Apply(c, s, step))
  {
    hide DataSound, ScannerSound, Conserved, ClientsSound;
    match step {
      case ByClient(x) => ClientKeeps(c, s, x);
      case ByMonitor(x) => MonitorKeeps(c, s, x);
      case ByScanner(x) => ScanKeeps(c, s, x);
      case Restart => RestartKeeps(c, s);
      case _ =>
    }
  }

  lemma RestartKeeps(c: Config, s: State)
    requires Sound(c, s)
    ensures Sound(c, ApplyRestart(s))
  {
    hide DataSound, ScannerSound;
    HistoryRest(c, s.db, s.history, ApplyRestart(s).history, s.scanner);
    IdleSound(s.db, ApplyRestart(s).history);
  }

  lemma IdleSound(db: Db, h: History)
    ensures ScannerSound(db, h, Idle)
  {
  }

  /** Every state of every run is sound. */
  lemma {:induction false} Safety(c: Config, states: seq<State>, steps: seq<Step>, i: nat)
    requires IsRunFromInit(c, states, steps) && i < |states|
    ensures Sound(c, states[i])
  {
    hide Sound, Enabled, Apply;
    if i == 0 {
      InitSound(c, states[0]);
    } else {
      Safety(c, states, steps, i - 1);
      SoundStep(c, states[i - 1], steps[i - 1]);
    }
  }

  lemma InitSound(c: Config, s: State)
    requires Init(s)
    ensures Sound(c, s)
  {
  }
}
