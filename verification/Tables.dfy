/** The five metadata tables and their constraints (PRIMARY KEY, UNIQUE, FOREIGN KEY). */
module Tables {
  import opened Prelude

  datatype FileStatus = Pending | Committed | Deleted
  datatype SessionStatus = Preparing | Finished | Aborted
  datatype NodeStatus = Healthy | Down

  datatype File = File(name: string, size: int, status: FileStatus)
  datatype Chunk = Chunk(fileId: string, index: int, size: int)
  datatype ChunkRow = ChunkRow(id: string, chunk: Chunk)
  datatype Location = Location(chunkId: string, nodeId: string)
  datatype Node = Node(address: string, status: NodeStatus, lastHeartbeat: int)
  datatype NodeRow = NodeRow(id: string, node: Node)
  datatype Session = Session(fileId: string, status: SessionStatus)

  datatype Db = Db(
    files: map<string, File>,
    chunks: map<string, Chunk>,
    locations: set<Location>,
    nodes: map<string, Node>,
    sessions: map<string, Session>)

  const EmptyDb := Db(map[], map[], {}, map[], map[])

  datatype DbError = PrimaryKey | Unique | ForeignKey

  // ---- Inserts ----

  function InsertFile(db: Db, id: string, file: File): Result<Db, DbError> {
    if id in db.files then Err(PrimaryKey) else Ok(db.(files := db.files[id := file]))
  }

  function InsertSession(db: Db, id: string, session: Session): Result<Db, DbError> {
    if id in db.sessions then Err(PrimaryKey)
    else if session.fileId !in db.files then Err(ForeignKey)
    else Ok(db.(sessions := db.sessions[id := session]))
  }

  predicate IndexTaken(db: Db, fileId: string, index: int) {
    exists c | c in db.chunks :: db.chunks[c].fileId == fileId && db.chunks[c].index == index
  }

  function InsertChunk(db: Db, row: ChunkRow): Result<Db, DbError> {
    if row.id in db.chunks then Err(PrimaryKey)
    else if IndexTaken(db, row.chunk.fileId, row.chunk.index) then Err(Unique)
    else if row.chunk.fileId !in db.files then Err(ForeignKey)
    else Ok(db.(chunks := db.chunks[row.id := row.chunk]))
  }

  function InsertLocation(db: Db, l: Location): Result<Db, DbError> {
    if l in db.locations then Err(PrimaryKey)
    else if l.chunkId !in db.chunks then Err(ForeignKey)
    else Ok(db.(locations := db.locations + {l}))
  }

  function InsertNode(db: Db, id: string, node: Node): Result<Db, DbError> {
    if id in db.nodes then Err(PrimaryKey) else Ok(db.(nodes := db.nodes[id := node]))
  }

  /** A loop of single-row INSERTs: the first failing row stops it. */
  function InsertChunkRows(db: Db, rows: seq<ChunkRow>): Result<Db, DbError> {
    if rows == [] then Ok(db)
    else match InsertChunkRows(db, rows[..|rows| - 1])
      case Err(e) => Err(e)
      case Ok(d) => InsertChunk(d, rows[|rows| - 1])
  }

  function InsertLocationRows(db: Db, rows: seq<Location>): Result<Db, DbError> {
    if rows == [] then Ok(db)
    else match InsertLocationRows(db, rows[..|rows| - 1])
      case Err(e) => Err(e)
      case Ok(d) => InsertLocation(d, rows[|rows| - 1])
  }

  // ---- Updates: an UPDATE that matches no row changes nothing ----

  function SetFileStatus(db: Db, id: string, status: FileStatus): Db {
    if id in db.files then db.(files := db.files[id := db.files[id].(status := status)]) else db
  }

  function SetSessionStatus(db: Db, id: string, status: SessionStatus): Db {
    if id in db.sessions then db.(sessions := db.sessions[id := db.sessions[id].(status := status)]) else db
  }

  function SetNodeStatus(db: Db, id: string, status: NodeStatus): Db {
    if id in db.nodes then db.(nodes := db.nodes[id := db.nodes[id].(status := status)]) else db
  }

  /** The UPDATE half of a heartbeat: address, timestamp, and status back to healthy. */
  function Beat(db: Db, id: string, address: string, second: int): Db {
    if id in db.nodes then db.(nodes := db.nodes[id := Node(address, Healthy, second)]) else db
  }

  // ---- Queries ----

  function ChunkIds(db: Db, fileId: string): set<string> {
    set c | c in db.chunks && db.chunks[c].fileId == fileId
  }

  ghost function Replicas(db: Db, chunkId: string): set<string> {
    set l | l in db.locations && l.chunkId == chunkId :: l.nodeId
  }

  function NodeRows(db: Db): set<NodeRow> {
    set n | n in db.nodes :: NodeRow(n, db.nodes[n])
  }

  function HealthyRows(db: Db): set<NodeRow> {
    set n | n in db.nodes && db.nodes[n].status == Healthy :: NodeRow(n, db.nodes[n])
  }

  function HealthyIds(db: Db): set<string> {
    set n | n in db.nodes && db.nodes[n].status == Healthy
  }

  /** Chunks whose parent file is committed (the JOIN of ListCommittedChunks). */
  function CommittedChunks(db: Db): set<string> {
    set c | c in db.chunks && db.chunks[c].fileId in db.files && db.files[db.chunks[c].fileId].status == Committed
  }

  /** What SELECT … WHERE file_id = ? ORDER BY chunk_index returns. */
  ghost predicate IsChunkListing(db: Db, fileId: string, q: seq<ChunkRow>) {
    && (forall i :: 0 <= i < |q| ==> q[i].id in db.chunks && db.chunks[q[i].id] == q[i].chunk && q[i].chunk.fileId == fileId)
    && (forall i, j :: 0 <= i < j < |q| ==> q[i].chunk.index < q[j].chunk.index)
    && (forall c :: c in ChunkIds(db, fileId) ==> exists i :: 0 <= i < |q| && q[i].id == c)
  }

  ghost predicate ForeignKeysHold(db: Db) {
    && (forall c :: c in db.chunks ==> db.chunks[c].fileId in db.files)
    && (forall l :: l in db.locations ==> l.chunkId in db.chunks)
    && (forall s :: s in db.sessions ==> db.sessions[s].fileId in db.files)
  }

  /** UNIQUE(file_id, chunk_index). */
  ghost predicate IndexesUnique(db: Db) {
    forall c, d :: c in db.chunks && d in db.chunks && c != d && db.chunks[c].fileId == db.chunks[d].fileId
      ==> db.chunks[c].index != db.chunks[d].index
  }

  // ---- What a loop of inserts does ----

  /** A failing row makes every longer loop fail too. */
  lemma {:induction false} LocationPrefixFails(db: Db, rows: seq<Location>, k: nat)
    requires k <= |rows| && InsertLocationRows(db, rows[..k]).Err?
    ensures InsertLocationRows(db, rows).Err?
    decreases |rows|
  {
    if k < |rows| {
      assert rows[..|rows| - 1][..k] == rows[..k];
      LocationPrefixFails(db, rows[..|rows| - 1], k);
    } else {
      assert rows[..k] == rows;
    }
  }

  lemma {:induction false} ChunkPrefixFails(db: Db, rows: seq<ChunkRow>, k: nat)
    requires k <= |rows| && InsertChunkRows(db, rows[..k]).Err?
    ensures InsertChunkRows(db, rows).Err?
    decreases |rows|
  {
    if k < |rows| {
      assert rows[..|rows| - 1][..k] == rows[..k];
      ChunkPrefixFails(db, rows[..|rows| - 1], k);
    } else {
      assert rows[..k] == rows;
    }
  }

  /** The location loop succeeds exactly when all rows are new, distinct and refer to known chunks. */
  lemma {:induction false} InsertLocationRowsExact(db: Db, rows: seq<Location>)
    ensures InsertLocationRows(db, rows).Ok? <==>
            NoDup(rows) && Elems(rows) !! db.locations && forall l :: l in rows ==> l.chunkId in db.chunks
    ensures InsertLocationRows(db, rows).Ok? ==>
            InsertLocationRows(db, rows).value == db.(locations := db.locations + Elems(rows))
  {
    if rows == [] {
      assert db.locations + Elems(rows) == db.locations;
    } else {
      var front, last := rows[..|rows| - 1], rows[|rows| - 1];
      InsertLocationRowsExact(db, front);
      assert rows == front + [last];
      NoDupSnoc(front, last);
      assert Elems(rows) == Elems(front) + {last};
      assert forall l :: l in rows <==> l in front || l == last;
      if InsertLocationRows(db, front).Ok? {
        assert (db.locations + Elems(front)) + {last} == db.locations + Elems(rows);
      }
    }
  }

  /** The chunk loop succeeds exactly when IDs and (file, index) pairs are all new and distinct. */
  lemma {:induction false} InsertChunkRowsExact(db: Db, rows: seq<ChunkRow>)
    ensures InsertChunkRows(db, rows).Ok? <==> ChunkRowsFit(db, rows)
    ensures InsertChunkRows(db, rows).Ok? ==> ChunkRowsInserted(db, rows, InsertChunkRows(db, rows).value)
  {
    if rows == [] {
    } else {
      var front, last := rows[..|rows| - 1], rows[|rows| - 1];
      InsertChunkRowsExact(db, front);
      assert rows == front + [last];
      if ChunkRowsFit(db, rows) {
        FrontFits(db, front, last);
      }
      if InsertChunkRows(db, front).Ok? {
        var mid := InsertChunkRows(db, front).value;
        LastFits(db, front, last, mid);
        if InsertChunk(mid, last).Ok? {
          LastInserted(db, front, last, mid);
        }
      }
    }
  }

  lemma FrontFits(db: Db, front: seq<ChunkRow>, last: ChunkRow)
    requires ChunkRowsFit(db, front + [last])
    ensures ChunkRowsFit(db, front)
  {
    var rows := front + [last];
    assert forall i :: 0 <= i < |front| ==> rows[i] == front[i];
  }

  ghost predicate RowWith(rows: seq<ChunkRow>, fileId: string, index: int) {
    exists i :: 0 <= i < |rows| && rows[i].chunk.fileId == fileId && rows[i].chunk.index == index
  }

  ghost predicate RowNamed(rows: seq<ChunkRow>, id: string) {
    exists i :: 0 <= i < |rows| && rows[i].id == id
  }

  lemma IndexTakenAfter(db: Db, rows: seq<ChunkRow>, after: Db, f: string, x: int)
    requires ChunkRowsInserted(db, rows, after) && ChunkRowsFit(db, rows)
    ensures IndexTaken(after, f, x) <==> IndexTaken(db, f, x) || RowWith(rows, f, x)
  {
    if IndexTaken(db, f, x) {
      var c :| c in db.chunks && db.chunks[c].fileId == f && db.chunks[c].index == x;
      assert c in after.chunks && after.chunks[c] == db.chunks[c];
    }
    if RowWith(rows, f, x) {
      var i :| 0 <= i < |rows| && rows[i].chunk.fileId == f && rows[i].chunk.index == x;
      assert rows[i].id in after.chunks;
    }
  }

  lemma SnocFits(db: Db, front: seq<ChunkRow>, last: ChunkRow)
    requires ChunkRowsFit(db, front)
    requires last.id !in db.chunks && last.chunk.fileId in db.files && !RowNamed(front, last.id)
    requires !IndexTaken(db, last.chunk.fileId, last.chunk.index) && !RowWith(front, last.chunk.fileId, last.chunk.index)
    ensures ChunkRowsFit(db, front + [last])
  {
    var rows := front + [last];
    assert forall i :: 0 <= i < |front| ==> rows[i] == front[i];
  }

  lemma LastFits(db: Db, front: seq<ChunkRow>, last: ChunkRow, mid: Db)
    requires ChunkRowsFit(db, front) && ChunkRowsInserted(db, front, mid)
    ensures InsertChunk(mid, last).Ok? <==> ChunkRowsFit(db, front + [last])
  {
    var rows := front + [last];
    assert rows[|front|] == last;
    var f, x := last.chunk.fileId, last.chunk.index;
    IndexTakenAfter(db, front, mid, f, x);
    assert last.id in mid.chunks <==> last.id in db.chunks || RowNamed(front, last.id);
    if InsertChunk(mid, last).Ok? {
      SnocFits(db, front, last);
    } else if RowNamed(front, last.id) {
      var i :| 0 <= i < |front| && front[i].id == last.id;
      assert rows[i].id == rows[|front|].id;
    } else if RowWith(front, f, x) {
      var i :| 0 <= i < |front| && front[i].chunk.fileId == f && front[i].chunk.index == x;
      assert rows[i].chunk == front[i].chunk;
    }
  }

  lemma LastInserted(db: Db, front: seq<ChunkRow>, last: ChunkRow, mid: Db)
    requires ChunkRowsInserted(db, front, mid) && InsertChunk(mid, last).Ok?
    ensures ChunkRowsInserted(db, front + [last], InsertChunk(mid, last).value)
  {
    var rows, after := front + [last], InsertChunk(mid, last).value;
    assert rows[|front|] == last;
    assert forall i :: 0 <= i < |front| ==> rows[i] == front[i];
    forall c | c in after.chunks && c !in db.chunks ensures exists i :: 0 <= i < |rows| && rows[i].id == c {
      if c in mid.chunks {
        var i :| 0 <= i < |front| && front[i].id == c;
        assert rows[i].id == c;
      }
    }
  }

  ghost predicate ChunkRowsFit(db: Db, rows: seq<ChunkRow>) {
    && (forall i :: 0 <= i < |rows| ==> rows[i].id !in db.chunks && rows[i].chunk.fileId in db.files)
    && (forall i :: 0 <= i < |rows| ==> !IndexTaken(db, rows[i].chunk.fileId, rows[i].chunk.index))
    && (forall i, j :: 0 <= i < j < |rows| ==> rows[i].id != rows[j].id)
    && (forall i, j :: 0 <= i < j < |rows| && rows[i].chunk.fileId == rows[j].chunk.fileId
          ==> rows[i].chunk.index != rows[j].chunk.index)
  }

  /** `after` is `db` with exactly these chunk rows added. */
  ghost predicate ChunkRowsInserted(db: Db, rows: seq<ChunkRow>, after: Db) {
    && after == db.(chunks := after.chunks)
    && (forall c :: c in db.chunks ==> c in after.chunks && after.chunks[c] == db.chunks[c])
    && (forall i :: 0 <= i < |rows| ==> rows[i].id in after.chunks && after.chunks[rows[i].id] == rows[i].chunk)
    && (forall c :: c in after.chunks ==> c in db.chunks || exists i :: 0 <= i < |rows| && rows[i].id == c)
  }

  // ---- Facts about queries ----

  /** The scan's chunks are exactly the chunks of committed files. */
  lemma ScanLists(db: Db, f: string, x: string)
    requires x in ChunkIds(db, f)
    ensures x in db.chunks && db.chunks[x].fileId == f
    ensures x in CommittedChunks(db) <==> f in db.files && db.files[f].status == Committed
  {
  }

  lemma LocationIsReplica(db: Db, chunkId: string, nodeId: string)
    ensures Location(chunkId, nodeId) in db.locations <==> nodeId in Replicas(db, chunkId)
  {
    if Location(chunkId, nodeId) in db.locations {
      assert Location(chunkId, nodeId).nodeId in Replicas(db, chunkId);
    }
  }

  lemma ReplicasAfterInsert(db: Db, rows: set<Location>, c: string)
    ensures Replicas(db.(locations := db.locations + rows), c)
            == Replicas(db, c) + (set l | l in rows && l.chunkId == c :: l.nodeId)
  {
  }

  /** A node listing without duplicate rows has no duplicate IDs. */
  lemma ListingIdsDistinct(db: Db, q: seq<NodeRow>)
    requires Lists(q, NodeRows(db)) || Lists(q, HealthyRows(db))
    ensures forall i :: 0 <= i < |q| ==> q[i].id in db.nodes && db.nodes[q[i].id] == q[i].node
    ensures forall i, j :: 0 <= i < j < |q| ==> q[i].id != q[j].id
  {
    forall i | 0 <= i < |q| ensures q[i].id in db.nodes && db.nodes[q[i].id] == q[i].node {
      assert q[i] in Elems(q);
    }
  }
}
