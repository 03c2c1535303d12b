/** What PrepareUpload's and CommitUpload's transactions mean, independently of how their loops run. */
module FileLifecycle {
  import opened Prelude
  import opened Tables
  import opened ChunkPlan

  /** The writes of PrepareUpload: file, session, chunks. */
  function PrepareRows(db: Db, fileId: string, sessionId: string, name: string, size: int, rows: seq<ChunkRow>)
    : Result<Db, DbError>
  {
    match InsertFile(db, fileId, File(name, size, Pending))
    case Err(e) => Err(e)
    case Ok(a) =>
      match InsertSession(a, sessionId, Session(fileId, Preparing))
      case Err(e) => Err(e)
      case Ok(b) => InsertChunkRows(b, rows)
  }

  /** Given sound foreign keys, preparing fails only on an ID that is already used, or used twice. */
  lemma PrepareExact(db: Db, fileId: string, sessionId: string, name: string, size: int, rows: seq<ChunkRow>)
    requires ForeignKeysHold(db)
    requires forall i :: 0 <= i < |rows| ==> rows[i].chunk.fileId == fileId && rows[i].chunk.index == i
    ensures var r := PrepareRows(db, fileId, sessionId, name, size, rows);
            && (r.Ok? <==> fileId !in db.files && sessionId !in db.sessions && Numbered(fileId, rows)
                           && forall i :: 0 <= i < |rows| ==> rows[i].id !in db.chunks)
            && (r.Ok? ==> Prepared(db, fileId, sessionId, name, size, rows, r.value))
  {
    if fileId !in db.files && sessionId !in db.sessions {
      var b := db.(files := db.files[fileId := File(name, size, Pending)],
                   sessions := db.sessions[sessionId := Session(fileId, Preparing)]);
      InsertChunkRowsExact(b, rows);
      assert forall x: int :: !IndexTaken(b, fileId, x);
      assert ChunkRowsFit(b, rows) <==> Numbered(fileId, rows) && forall i :: 0 <= i < |rows| ==> rows[i].id !in db.chunks;
      if InsertChunkRows(b, rows).Ok? {
        RowsStored(b, fileId, rows, InsertChunkRows(b, rows).value);
      }
    }
  }

  /** What preparing needs and writes, in terms of the tables alone. */
  lemma PrepareMeaning(db: Db, fileId: string, sessionId: string, name: string, size: int, rows: seq<ChunkRow>)
    ensures var r := PrepareRows(db, fileId, sessionId, name, size, rows);
      r.Ok? ==>
        && fileId !in db.files && sessionId !in db.sessions
        && r.value.files == db.files[fileId := File(name, size, Pending)]
        && r.value.sessions == db.sessions[sessionId := Session(fileId, Preparing)]
        && r.value.locations == db.locations && r.value.nodes == db.nodes
        && (forall c :: c in db.chunks ==> c in r.value.chunks && r.value.chunks[c] == db.chunks[c])
        && (forall i :: 0 <= i < |rows| ==> rows[i].id !in db.chunks && rows[i].id in r.value.chunks)
        && (forall i :: 0 <= i < |rows| ==> r.value.chunks[rows[i].id] == rows[i].chunk)
        && (forall c :: c in r.value.chunks && c !in db.chunks ==> exists i :: 0 <= i < |rows| && rows[i].id == c)
  {
    if fileId !in db.files && sessionId !in db.sessions {
      var b := db.(files := db.files[fileId := File(name, size, Pending)],
                   sessions := db.sessions[sessionId := Session(fileId, Preparing)]);
      InsertChunkRowsExact(b, rows);
      hide InsertChunkRows;
    }
  }

  lemma RowsStored(b: Db, fileId: string, rows: seq<ChunkRow>, after: Db)
    requires forall c :: c in b.chunks ==> b.chunks[c].fileId != fileId
    requires Numbered(fileId, rows) && ChunkRowsInserted(b, rows, after)
    ensures HoldsRows(after, fileId, rows)
    ensures after.chunks.Keys == b.chunks.Keys + RowIds(rows)
  {
    forall c | c in after.chunks && c !in b.chunks ensures c in RowIds(rows) {
      var i :| 0 <= i < |rows| && rows[i].id == c;
      assert rows[i] in rows;
    }
  }

  /** `after` is `db` plus one pending file with its chunk rows and one preparing session. */
  ghost predicate Prepared(
    db: Db, fileId: string, sessionId: string, name: string, size: int, rows: seq<ChunkRow>, after: Db)
  {
    && after == db.(files := db.files[fileId := File(name, size, Pending)],
                    sessions := db.sessions[sessionId := Session(fileId, Preparing)],
                    chunks := after.chunks)
    && after.chunks.Keys == db.chunks.Keys + RowIds(rows)
    && (forall c :: c in db.chunks ==> c !in RowIds(rows) && after.chunks[c] == db.chunks[c])
    && HoldsRows(after, fileId, rows)
  }

  // ---- Commit ----

  ghost function RowsOf(m: map<string, seq<string>>): set<Location> {
    set c, n | c in m && n in m[c] :: Location(c, n)
  }

  /** Exactly the file's chunks, each with at least `r` different, non-empty node IDs. */
  ghost predicate Covers(db: Db, r: int, fileId: string, m: map<string, seq<string>>) {
    && m.Keys == ChunkIds(db, fileId)
    && forall c :: c in m ==> |m[c]| >= r && NoDup(m[c]) && "" !in m[c]
  }

  /** CommitUpload has something to write: a preparing session of a pending file. */
  ghost predicate Committable(db: Db, sessionId: string) {
    && sessionId in db.sessions
    && db.sessions[sessionId].status == Preparing
    && db.sessions[sessionId].fileId in db.files
    && db.files[db.sessions[sessionId].fileId].status == Pending
  }

  /** CommitUpload returns nil without writing. */
  ghost predicate AlreadyDone(db: Db, sessionId: string) {
    && sessionId in db.sessions
    && (db.sessions[sessionId].status == Finished
        || (&& db.sessions[sessionId].status == Preparing
            && db.sessions[sessionId].fileId in db.files
            && db.files[db.sessions[sessionId].fileId].status == Committed))
  }

  ghost predicate CommitWrites(db: Db, r: int, sessionId: string, m: map<string, seq<string>>) {
    && Committable(db, sessionId)
    && ChunkIds(db, db.sessions[sessionId].fileId) != {}
    && Covers(db, r, db.sessions[sessionId].fileId, m)
    && RowsOf(m) !! db.locations
  }

  ghost predicate CommitSucceeds(db: Db, r: int, sessionId: string, m: map<string, seq<string>>) {
    AlreadyDone(db, sessionId) || CommitWrites(db, r, sessionId, m)
  }

  /** The tables after CommitUpload, whatever it returns. */
  ghost function AfterCommit(db: Db, r: int, sessionId: string, m: map<string, seq<string>>): Db {
    if CommitWrites(db, r, sessionId, m) then
      var f := db.sessions[sessionId].fileId;
      SetSessionStatus(SetFileStatus(db.(locations := db.locations + RowsOf(m)), f, Committed), sessionId, Finished)
    else db
  }

  /** When there is nothing to commit: which sessions are refused, and which are done already. */
  lemma CommitRefused(db: Db, r: int, q: string, m: map<string, seq<string>>)
    requires q in db.sessions && db.sessions[q].status == Preparing && db.sessions[q].fileId in db.files ==>
             db.files[db.sessions[q].fileId].status != Pending
    ensures AfterCommit(db, r, q, m) == db
    ensures CommitSucceeds(db, r, q, m) <==>
      && q in db.sessions
      && (|| db.sessions[q].status == Finished
          || (&& db.sessions[q].status == Preparing && db.sessions[q].fileId in db.files
              && db.files[db.sessions[q].fileId].status == Committed))
  {
  }

  /** What committing a preparing session of a pending file demands and writes, in terms of the tables alone. */
  lemma CommitMeaning(db: Db, r: int, q: string, m: map<string, seq<string>>)
    requires q in db.sessions && db.sessions[q].status == Preparing
    requires db.sessions[q].fileId in db.files && db.files[db.sessions[q].fileId].status == Pending
    ensures CommitSucceeds(db, r, q, m) <==>
      && (exists x :: x in db.chunks && db.chunks[x].fileId == db.sessions[q].fileId)
      && (forall x :: x in m <==> x in db.chunks && db.chunks[x].fileId == db.sessions[q].fileId)
      && (forall x :: x in m ==> |m[x]| >= r)
      && (forall x, i, j :: x in m && 0 <= i < j < |m[x]| ==> m[x][i] != m[x][j])
      && (forall x, n :: x in m && n in m[x] ==> n != "" && Location(x, n) !in db.locations)
    ensures !CommitSucceeds(db, r, q, m) ==> AfterCommit(db, r, q, m) == db
    ensures CommitSucceeds(db, r, q, m) ==>
      var (f, after) := (db.sessions[q].fileId, AfterCommit(db, r, q, m));
      && after.files == db.files[f := File(db.files[f].name, db.files[f].size, Committed)]
      && after.sessions == db.sessions[q := Session(f, Finished)]
      && after.chunks == db.chunks && after.nodes == db.nodes
      && (forall l :: l in after.locations <==> l in db.locations || (l.chunkId in m && l.nodeId in m[l.chunkId]))
  {
    var f := db.sessions[q].fileId;
    if CommitSucceeds(db, r, q, m) {
      forall x ensures x in m <==> x in db.chunks && db.chunks[x].fileId == f {
        assert x in m.Keys <==> x in ChunkIds(db, f);
      }
      var x :| x in ChunkIds(db, f);
      forall x, n | x in m && n in m[x] ensures n != "" && Location(x, n) !in db.locations {
        assert Location(x, n) in RowsOf(m);
      }
    }
    if (exists x :: x in db.chunks && db.chunks[x].fileId == f)
       && (forall x :: x in m <==> x in db.chunks && db.chunks[x].fileId == f)
       && (forall x :: x in m ==> |m[x]| >= r)
       && (forall x, i, j :: x in m && 0 <= i < j < |m[x]| ==> m[x][i] != m[x][j])
       && (forall x, n :: x in m && n in m[x] ==> n != "" && Location(x, n) !in db.locations) {
      assert m.Keys == ChunkIds(db, f);
    }
  }

  /** The rows for one chunk. */
  function Tagged(c: string, nodes: seq<string>): seq<Location> {
    seq(|nodes|, i requires 0 <= i < |nodes| => Location(c, nodes[i]))
  }

  lemma TaggedSnoc(c: string, nodes: seq<string>, j: nat)
    requires j < |nodes|
    ensures Tagged(c, nodes[..j + 1]) == Tagged(c, nodes[..j]) + [Location(c, nodes[j])]
  {
  }

  ghost function Restricted(m: map<string, seq<string>>, keys: set<string>): map<string, seq<string>> {
    map c | c in m && c in keys :: m[c]
  }

  /** Appending the rows of a new chunk keeps the rows distinct exactly when its node list is. */
  lemma TaggedAppend(rows: seq<Location>, c: string, nodes: seq<string>)
    requires forall l :: l in rows ==> l.chunkId != c
    ensures NoDup(rows + Tagged(c, nodes)) <==> NoDup(rows) && NoDup(nodes)
  {
    var all := rows + Tagged(c, nodes);
    forall i | 0 <= i < |rows| ensures all[i] == rows[i] && all[i].chunkId != c {
      assert rows[i] in rows;
    }
    forall i | 0 <= i < |nodes| ensures all[|rows| + i] == Location(c, nodes[i]) {
    }
    if NoDup(all) {
      forall i, j | 0 <= i < j < |nodes| ensures nodes[i] != nodes[j] {
        assert all[|rows| + i] != all[|rows| + j];
      }
      forall i, j | 0 <= i < j < |rows| ensures rows[i] != rows[j] {
        assert all[i] != all[j];
      }
    }
    if NoDup(rows) && NoDup(nodes) {
      forall i, j | 0 <= i < j < |all| ensures all[i] != all[j] {
        if j < |rows| {
          assert rows[i] != rows[j];
        } else if i >= |rows| {
          assert nodes[i - |rows|] != nodes[j - |rows|];
        }
      }
    }
  }

  lemma RowsOfGrows(m: map<string, seq<string>>, keys: set<string>, c: string)
    requires c in m
    ensures RowsOf(Restricted(m, keys + {c})) == RowsOf(Restricted(m, keys)) + Elems(Tagged(c, m[c]))
  {
    var tagged := Tagged(c, m[c]);
    forall l | l in RowsOf(Restricted(m, keys + {c})) ensures l in RowsOf(Restricted(m, keys)) + Elems(tagged) {
      if l.chunkId == c {
        var i :| 0 <= i < |m[c]| && m[c][i] == l.nodeId;
        assert tagged[i] == l;
      } else {
        assert l.nodeId in Restricted(m, keys)[l.chunkId];
      }
    }
    forall l | l in Elems(tagged) ensures l in RowsOf(Restricted(m, keys + {c})) {
      var i :| 0 <= i < |tagged| && tagged[i] == l;
      assert m[c][i] in Restricted(m, keys + {c})[c];
    }
    forall l | l in RowsOf(Restricted(m, keys)) ensures l in RowsOf(Restricted(m, keys + {c})) {
      assert l.nodeId in Restricted(m, keys + {c})[l.chunkId];
    }
  }

  /** Rows gathered for the keys in `done`, extended by those for one more key. */
  lemma RowsExtend(m: map<string, seq<string>>, done: set<string>, c: string, rows: seq<Location>)
    requires c in m && c !in done && Elems(rows) == RowsOf(Restricted(m, done))
    ensures var all := rows + Tagged(c, m[c]);
            && Elems(all) == RowsOf(Restricted(m, done + {c}))
            && (NoDup(all) <==> NoDup(rows) && NoDup(m[c]))
  {
    forall l | l in rows ensures l.chunkId != c {
      assert l in Elems(rows);
    }
    TaggedAppend(rows, c, m[c]);
    RowsOfGrows(m, done, c);
    assert Elems(rows + Tagged(c, m[c])) == Elems(rows) + Elems(Tagged(c, m[c]));
  }

  /** On tables where a pending file's chunks have no rows, success depends on the map alone. */
  lemma CommitExact(db: Db, r: int, sessionId: string, m: map<string, seq<string>>)
    requires Committable(db, sessionId)
    requires forall c :: c in ChunkIds(db, db.sessions[sessionId].fileId) ==> Replicas(db, c) == {}
    ensures CommitSucceeds(db, r, sessionId, m)
            <==> ChunkIds(db, db.sessions[sessionId].fileId) != {} && Covers(db, r, db.sessions[sessionId].fileId, m)
  {
    if Covers(db, r, db.sessions[sessionId].fileId, m) {
      forall l | l in RowsOf(m) ensures l !in db.locations {
        assert l in db.locations ==> l.nodeId in Replicas(db, l.chunkId);
      }
    }
  }
}
