/** The metadata store: every method is one SQL statement, or a loop of them. */
module SqliteStore {
  import opened Prelude
  import opened Tables

  /** A statement either takes effect or fails and changes nothing. */
  ghost predicate Executed(before: Db, after: Db, effect: Result<Db, DbError>, r: Result<(), DbError>) {
    match effect
    case Ok(d) => r == Ok(()) && after == d
    case Err(e) => r == Err(e) && after == before
  }

  class Store {
    var db: Db

    constructor ()
      ensures db == EmptyDb
    {
      db := EmptyDb;
    }

    /** BEGIN: remember the tables, so that Rollback can bring them back. */
    method Begin() returns (snapshot: Db)
      ensures snapshot == db
    {
      snapshot := db;
    }

    method Rollback(snapshot: Db)
      modifies this
      ensures db == snapshot
    {
      db := snapshot;
    }

    method CreateFile(id: string, file: File) returns (r: Result<(), DbError>)
      modifies this
      ensures Executed(old(db), db, InsertFile(old(db), id, file), r)
      ensures r.Ok? <==> id !in old(db).files
      ensures db == if r.Ok? then old(db).(files := old(db).files[id := file]) else old(db)
    {
      match InsertFile(db, id, file)
      case Ok(d) => db := d; r := Ok(());
      case Err(e) => r := Err(e);
    }

    method CreateUploadSession(id: string, session: Session) returns (r: Result<(), DbError>)
      modifies this
      ensures Executed(old(db), db, InsertSession(old(db), id, session), r)
      ensures r.Ok? <==> id !in old(db).sessions && session.fileId in old(db).files
      ensures db == if r.Ok? then old(db).(sessions := old(db).sessions[id := session]) else old(db)
    {
      match InsertSession(db, id, session)
      case Ok(d) => db := d; r := Ok(());
      case Err(e) => r := Err(e);
    }

    /** Inserts the rows in order; an error leaves the rows before the failing one in place. */
    method InsertChunks(rows: seq<ChunkRow>) returns (r: Result<(), DbError>)
      modifies this
      ensures r.Ok? ==> InsertChunkRows(old(db), rows) == Ok(db)
      ensures r.Err? ==> InsertChunkRows(old(db), rows).Err?
      ensures r.Err? ==> exists k :: 0 <= k < |rows| && InsertChunkRows(old(db), rows[..k]) == Ok(db)
    {
      for i := 0 to |rows|
        invariant InsertChunkRows(old(db), rows[..i]) == Ok(db)
      {
        assert rows[..i + 1][..i] == rows[..i];
        match InsertChunk(db, rows[i])
        case Ok(d) => db := d;
        case Err(e) =>
          ChunkPrefixFails(old(db), rows, i + 1);
          return Err(e);
      }
      assert rows[..|rows|] == rows;
      r := Ok(());
    }

    /** As InsertChunks: not atomic on its own. */
    method InsertChunkLocations(rows: seq<Location>) returns (r: Result<(), DbError>)
      modifies this
      ensures r.Ok? ==> InsertLocationRows(old(db), rows) == Ok(db)
      ensures r.Err? ==> InsertLocationRows(old(db), rows).Err?
      ensures r.Err? ==> exists k :: 0 <= k < |rows| && InsertLocationRows(old(db), rows[..k]) == Ok(db)
    {
      for i := 0 to |rows|
        invariant InsertLocationRows(old(db), rows[..i]) == Ok(db)
      {
        assert rows[..i + 1][..i] == rows[..i];
        match InsertLocation(db, rows[i])
        case Ok(d) => db := d;
        case Err(e) =>
          LocationPrefixFails(old(db), rows, i + 1);
          return Err(e);
      }
      assert rows[..|rows|] == rows;
      r := Ok(());
    }

    /** A plain INSERT: a duplicate row is an error, not a no-op. */
    method AddChunkLocation(chunkId: string, nodeId: string) returns (r: Result<(), DbError>)
      modifies this
      ensures Executed(old(db), db, InsertLocation(old(db), Location(chunkId, nodeId)), r)
      ensures r.Ok? <==> Location(chunkId, nodeId) !in old(db).locations && chunkId in old(db).chunks
      ensures db == if r.Ok? then old(db).(locations := old(db).locations + {Location(chunkId, nodeId)}) else old(db)
    {
      match InsertLocation(db, Location(chunkId, nodeId))
      case Ok(d) => db := d; r := Ok(());
      case Err(e) => r := Err(e);
    }

    method UpdateFileStatus(id: string, status: FileStatus)
      modifies this
      ensures db == SetFileStatus(old(db), id, status)
      ensures db == old(db).(files := db.files) && db.files.Keys == old(db).files.Keys
      ensures forall f :: f in db.files ==>
        db.files[f] == if f == id then old(db).files[f].(status := status) else old(db).files[f]
    {
      db := SetFileStatus(db, id, status);
    }

    method UpdateUploadSessionStatus(id: string, status: SessionStatus)
      modifies this
      ensures db == SetSessionStatus(old(db), id, status)
      ensures db == old(db).(sessions := db.sessions) && db.sessions.Keys == old(db).sessions.Keys
      ensures forall s :: s in db.sessions ==>
        db.sessions[s] == if s == id then old(db).sessions[s].(status := status) else old(db).sessions[s]
    {
      db := SetSessionStatus(db, id, status);
    }

    method UpdateNodeStatus(id: string, status: NodeStatus)
      modifies this
      ensures db == SetNodeStatus(old(db), id, status)
      ensures db == old(db).(nodes := db.nodes) && db.nodes.Keys == old(db).nodes.Keys
      ensures forall n :: n in db.nodes ==>
        db.nodes[n] == if n == id then old(db).nodes[n].(status := status) else old(db).nodes[n]
    {
      db := SetNodeStatus(db, id, status);
    }

    /** UPDATE, then INSERT when no row was affected. Run alone, it never fails. */
    method UpsertNodeHeartbeat(id: string, address: string, second: int) returns (r: Result<(), DbError>)
      modifies this
      ensures r.Ok?
      ensures db == old(db).(nodes := old(db).nodes[id := Node(address, Healthy, second)])
    {
      var affected := id in db.nodes;
      db := Beat(db, id, address, second);
      r := Ok(());
      if !affected {
        match InsertNode(db, id, Node(address, Healthy, second))
        case Ok(d) => db := d;
        case Err(e) => r := Err(e);
      }
    }

    method GetFile(id: string) returns (r: Option<File>)
      ensures r == if id in db.files then Some(db.files[id]) else None
    {
      r := if id in db.files then Some(db.files[id]) else None;
    }

    method GetUploadSession(id: string) returns (r: Option<Session>)
      ensures r == if id in db.sessions then Some(db.sessions[id]) else None
    {
      r := if id in db.sessions then Some(db.sessions[id]) else None;
    }

    method ListHealthyNodes() returns (q: seq<NodeRow>)
      ensures Lists(q, HealthyRows(db))
      ensures forall i, j :: 0 <= i < j < |q| ==> q[i].id != q[j].id
      ensures forall r :: r in q <==> r.id in db.nodes && r.node == db.nodes[r.id] && r.node.status == Healthy
    {
      q := Enumerate(HealthyRows(db));
      ListingIdsDistinct(db, q);
      forall r ensures r in q <==> r.id in db.nodes && r.node == db.nodes[r.id] && r.node.status == Healthy {
        assert r in Elems(q) <==> r in HealthyRows(db);
      }
    }

    method ListAllNodes() returns (q: seq<NodeRow>)
      ensures Lists(q, NodeRows(db))
      ensures forall i, j :: 0 <= i < j < |q| ==> q[i].id != q[j].id
      ensures forall r :: r in q <==> r.id in db.nodes && r.node == db.nodes[r.id]
    {
      q := Enumerate(NodeRows(db));
      ListingIdsDistinct(db, q);
      forall r ensures r in q <==> r.id in db.nodes && r.node == db.nodes[r.id] {
        assert r in Elems(q) <==> r in NodeRows(db);
      }
    }

    method ListCommittedChunks() returns (q: seq<string>)
      ensures Lists(q, CommittedChunks(db))
      ensures forall i, j :: 0 <= i < j < |q| ==> q[i] != q[j]
      ensures forall x :: x in q <==>
        x in db.chunks && db.chunks[x].fileId in db.files && db.files[db.chunks[x].fileId].status == Committed
    {
      q := Enumerate(CommittedChunks(db));
      forall x ensures x in q <==> x in CommittedChunks(db) {
        assert x in q <==> x in Elems(q);
      }
    }

    /** The node IDs of the location rows of one chunk. */
    method GetChunkLocations(chunkId: string) returns (q: seq<string>)
      ensures Lists(q, Replicas(db, chunkId))
      ensures forall i, j :: 0 <= i < j < |q| ==> q[i] != q[j]
      ensures forall n :: n in q <==> Location(chunkId, n) in db.locations
    {
      var ids := set l | l in db.locations && l.chunkId == chunkId :: l.nodeId;
      q := Enumerate(ids);
      forall n ensures n in q <==> Location(chunkId, n) in db.locations {
        assert n in q <==> n in Elems(q);
        LocationIsReplica(db, chunkId, n);
      }
    }

    /** ORDER BY chunk_index: takes the row with the least remaining index each time. */
    method GetChunksByFileID(fileId: string) returns (q: seq<ChunkRow>)
      requires IndexesUnique(db)
      ensures IsChunkListing(db, fileId, q)
      ensures forall i, j :: 0 <= i < j < |q| ==> q[i].chunk.index < q[j].chunk.index
      ensures forall r :: r in q <==> r.id in db.chunks && r.chunk == db.chunks[r.id] && r.chunk.fileId == fileId
    {
      q := [];
      var rest := ChunkIds(db, fileId);
      while rest != {}
        invariant PartialListing(db, fileId, q, rest)
        decreases |rest|
      {
        LeastIndexExists(db, rest);
        var c :| c in rest && forall d :: d in rest ==> db.chunks[c].index <= db.chunks[d].index;
        ListingGrows(db, fileId, q, rest, c);
        q := q + [ChunkRow(c, db.chunks[c])];
        rest := rest - {c};
      }
      ListingComplete(db, fileId, q);
    }
  }

  /** `q` lists, in index order, the chunk rows that are not in `rest`; all of `rest` comes later. */
  ghost predicate PartialListing(db: Db, fileId: string, q: seq<ChunkRow>, rest: set<string>) {
    && rest <= ChunkIds(db, fileId)
    && (forall i :: 0 <= i < |q| ==> q[i].id in db.chunks && db.chunks[q[i].id] == q[i].chunk && q[i].chunk.fileId == fileId)
    && (forall i, j :: 0 <= i < j < |q| ==> q[i].chunk.index < q[j].chunk.index)
    && (forall c :: c in ChunkIds(db, fileId) ==> c in rest || exists i :: 0 <= i < |q| && q[i].id == c)
    && (forall i, c :: 0 <= i < |q| && c in rest ==> q[i].chunk.index < db.chunks[c].index)
  }

  lemma ListingComplete(db: Db, fileId: string, q: seq<ChunkRow>)
    requires IsChunkListing(db, fileId, q)
    ensures forall r :: r in q <==> r.id in db.chunks && r.chunk == db.chunks[r.id] && r.chunk.fileId == fileId
  {
    forall r ensures r in q <==> r.id in db.chunks && r.chunk == db.chunks[r.id] && r.chunk.fileId == fileId {
      if r.id in db.chunks && r.chunk == db.chunks[r.id] && r.chunk.fileId == fileId {
        assert r.id in ChunkIds(db, fileId);
        var i :| 0 <= i < |q| && q[i].id == r.id;
        assert q[i] == r;
      }
    }
  }

  lemma ListingGrows(db: Db, fileId: string, q: seq<ChunkRow>, rest: set<string>, c: string)
    requires IndexesUnique(db) && PartialListing(db, fileId, q, rest)
    requires c in rest && forall d :: d in rest ==> db.chunks[c].index <= db.chunks[d].index
    ensures PartialListing(db, fileId, q + [ChunkRow(c, db.chunks[c])], rest - {c})
  {
    var r := q + [ChunkRow(c, db.chunks[c])];
    assert r[|q|].id == c;
    assert forall i :: 0 <= i < |q| ==> r[i] == q[i];
    forall d | d in ChunkIds(db, fileId) ensures d in rest - {c} || exists i :: 0 <= i < |r| && r[i].id == d {
      if d !in rest {
        var i :| 0 <= i < |q| && q[i].id == d;
        assert r[i].id == d;
      }
    }
  }

  lemma {:induction false} LeastIndexExists(db: Db, s: set<string>)
    requires s != {} && s <= db.chunks.Keys
    ensures exists c :: c in s && forall d :: d in s ==> db.chunks[c].index <= db.chunks[d].index
    decreases |s|
  {
    var x :| x in s;
    if s == {x} {
      assert x in s && forall d :: d in s ==> db.chunks[x].index <= db.chunks[d].index;
    } else {
      LeastIndexExists(db, s - {x});
      var c :| c in s - {x} && forall d :: d in s - {x} ==> db.chunks[c].index <= db.chunks[d].index;
      if db.chunks[x].index < db.chunks[c].index {
        assert x in s && forall d :: d in s ==> db.chunks[x].index <= db.chunks[d].index;
      } else {
        assert c in s && forall d :: d in s ==> db.chunks[c].index <= db.chunks[d].index;
      }
    }
  }
}
