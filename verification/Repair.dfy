/** Repair of under-replicated chunks: count, pick a source and a target, copy, record. */
module Repair {
  import opened Prelude
  import opened Tables
  import SqliteStore
  import Registry

  // ---- What a scan does to the replica set of one chunk ----

  /** One more healthy node if too few but some hold the chunk and a healthy node without it exists; else no change. */
  ghost predicate ScannedChunk(r: int, healthy: set<string>, before: set<string>, after: set<string>) {
    if |before * healthy| < r && before * healthy != {} && healthy - before != {} then
      exists t :: t in healthy - before && after == before + {t}
    else after == before
  }

  /** A scan that ran alone: `failed` are the chunks whose attempt ended in an error. */
  ghost predicate Scan(r: int, before: Db, after: Db, failed: set<string>) {
    && after == before.(locations := after.locations)
    && failed <= CommittedChunks(before)
    && (forall c :: c !in CommittedChunks(before) || c in failed ==> Replicas(after, c) == Replicas(before, c))
    && (forall c :: c in CommittedChunks(before) && c !in failed ==>
          ScannedChunk(r, HealthyIds(before), Replicas(before, c), Replicas(after, c)))
  }

  /** Some listed holder is healthy, and some healthy node is no listed holder. */
  ghost predicate Attempted(db: Db, locations: seq<string>) {
    Elems(locations) * HealthyIds(db) != {} && HealthyIds(db) - Elems(locations) != {}
  }

  ghost predicate Unattempted(before: Db, after: Db, r: Result<(), Error>) {
    after == before && r == Ok(())
  }

  /** The node a chunk was copied from and the node it was copied to. */
  datatype Transfer = Transfer(source: string, target: string)

  /** From a healthy holder to a healthy node outside `holders`. */
  ghost predicate SoundTransfer(db: Db, holders: set<string>, copy: Transfer) {
    copy.source in holders * HealthyIds(db) && copy.target in HealthyIds(db) - holders
  }

  /** Exactly one row was added: for the target of the copy. */
  ghost predicate Recorded(before: Db, after: Db, chunkId: string, copy: Transfer) {
    && Location(chunkId, copy.target) !in before.locations
    && after == before.(locations := before.locations + {Location(chunkId, copy.target)})
  }

  /** As Scan, for a scan that has dealt with the chunks in `done` so far. */
  ghost predicate PartialScan(r: int, before: Db, now: Db, done: set<string>, failed: set<string>) {
    && now == before.(locations := now.locations)
    && failed <= done
    && (forall c :: c !in done || c in failed ==> Replicas(now, c) == Replicas(before, c))
    && (forall c :: c in done && c !in failed ==>
          ScannedChunk(r, HealthyIds(before), Replicas(before, c), Replicas(now, c)))
  }

  /** One CopyChunk RPC: where it was sent, where it says to fetch the chunk, and whether it succeeded. */
  datatype Request = Request(sentTo: string, fetchFrom: string, chunkId: string, ok: bool)

  datatype Error = CopyFailed | Database(e: DbError)

  /** First listed node that holds no replica. */
  function FirstWithout(nodes: seq<NodeRow>, holders: set<string>): Option<NodeRow> {
    if nodes == [] then None
    else if nodes[0].id !in holders then Some(nodes[0])
    else FirstWithout(nodes[1..], holders)
  }

  lemma {:induction false} FirstWithoutFound(nodes: seq<NodeRow>, holders: set<string>)
    ensures match FirstWithout(nodes, holders)
            case Some(n) => n in nodes && n.id !in holders
            case None => forall i :: 0 <= i < |nodes| ==> nodes[i].id in holders
  {
    if nodes != [] && nodes[0].id in holders {
      FirstWithoutFound(nodes[1..], holders);
      if FirstWithout(nodes, holders).None? {
        forall i | 0 <= i < |nodes| ensures nodes[i].id in holders {
          if i > 0 {
            assert nodes[1..][i - 1].id in holders;
          }
        }
      }
    }
  }

  /** The locations that are healthy, in order. */
  ghost function Kept(locations: seq<string>, healthy: set<string>): (ids: seq<string>)
    ensures Elems(ids) == Elems(locations) * healthy
    ensures ids == [] <==> Elems(locations) * healthy == {}
  {
    if locations == [] then []
    else
      var n := |locations| - 1;
      assert Elems(locations) == Elems(locations[..n]) + {locations[n]};
      var ids := Kept(locations[..n], healthy) + if locations[n] in healthy then [locations[n]] else [];
      assert Elems(ids) == Elems(Kept(locations[..n], healthy)) + if locations[n] in healthy then {locations[n]} else {};
      assert ids != [] ==> ids[0] in Elems(ids);
      ids
  }

  /** The rows of these nodes, in order. */
  ghost predicate RowsFor(db: Db, ids: seq<string>, rows: seq<NodeRow>) {
    && |rows| == |ids|
    && forall i :: 0 <= i < |ids| ==> ids[i] in db.nodes && rows[i] == NodeRow(ids[i], db.nodes[ids[i]])
  }

  class Manager {
    const store: SqliteStore.Store
    const registry: Registry.Manager
    const replicationFactor: int
    var attempts: nat
    var failures: nat
    var successes: nat
    ghost var requests: seq<Request>   // the RPCs made, in order

    constructor (s: SqliteStore.Store, reg: Registry.Manager, r: int)
      ensures store == s && registry == reg && replicationFactor == r
      ensures attempts == failures == successes == 0 && requests == []
    {
      store, registry, replicationFactor := s, reg, r;
      attempts, failures, successes, requests := 0, 0, 0, [];
    }

    /** The CopyChunk RPC, sent to the target and naming the source: succeeds or fails for reasons outside the metadata. */
    method RequestCopy(targetAddress: string, sourceAddress: string, chunkId: string) returns (ok: bool)
      modifies this`requests
      ensures requests == old(requests) + [Request(targetAddress, sourceAddress, chunkId, ok)]
    {
      ok :| true;
      requests := requests + [Request(targetAddress, sourceAddress, chunkId, ok)];
    }

    /** Healthy replicas in location order, each looked up in the current node list. */
    method HealthyReplicas(locations: seq<string>) returns (replicas: seq<NodeRow>)
      requires registry.store == store && "" !in store.db.nodes
      ensures RowsFor(store.db, Kept(locations, HealthyIds(store.db)), replicas)
    {
      replicas := [];
      for i := 0 to |locations|
        invariant RowsFor(store.db, Kept(locations[..i], HealthyIds(store.db)), replicas)
      {
        var healthy := registry.IsNodeHealthy(locations[i]);
        assert locations[..i + 1][..i] == locations[..i];
        if healthy.Ok? && healthy.value {
          var nodes := store.ListHealthyNodes();
          Registry.HealthyNamed(store.db, nodes, locations[i]);
          var k := 0;
          while nodes[k].id != locations[i]
            invariant 0 <= k < |nodes|
            invariant exists j :: k <= j < |nodes| && nodes[j].id == locations[i]
            decreases |nodes| - k
          {
            k := k + 1;
          }
          assert nodes[k] in Elems(nodes);
          replicas := replicas + [nodes[k]];
        }
      }
      assert locations[..|locations|] == locations;
    }

    /** Works from the locations read earlier; they need not be current. With current ones, only the copy can fail. */
    method RepairChunk(chunkId: string, locations: seq<string>)
      returns (r: Result<(), Error>, ghost copy: Option<Transfer>)
      requires registry.store == store && "" !in store.db.nodes
      modifies store, this
      ensures copy.Some? <==> Attempted(old(store.db), locations)
      ensures copy.Some? ==> SoundTransfer(old(store.db), Elems(locations), copy.value)
      ensures copy.Some? ==> copy.value.source == Kept(locations, HealthyIds(old(store.db)))[0]
      ensures copy.None? ==> Unattempted(old(store.db), store.db, r) && requests == old(requests)
      ensures copy.Some? ==>
        && copy.value.target in old(store.db).nodes && copy.value.source in old(store.db).nodes
        && requests == old(requests) + [Request(old(store.db).nodes[copy.value.target].address,
             old(store.db).nodes[copy.value.source].address, chunkId, r != Err(CopyFailed))]
      ensures store.db != old(store.db) ==> requests != old(requests) && requests[|requests| - 1].ok
      ensures attempts == old(attempts) + if copy.Some? then 1 else 0
      ensures failures == old(failures) + if r.Err? then 1 else 0
      ensures successes == old(successes) + if r.Ok? && copy.Some? then 1 else 0
      ensures r.Err? ==> store.db == old(store.db)
      ensures r.Ok? && copy.Some? ==> Recorded(old(store.db), store.db, chunkId, copy.value)
      ensures r.Err? && chunkId in old(store.db).chunks && Elems(locations) == Replicas(old(store.db), chunkId) ==> r.error == CopyFailed
    {
      var replicas := HealthyReplicas(locations);
      if |replicas| == 0 {
        return Ok(()), None;
      }
      assert replicas[0].id in Elems(Kept(locations, HealthyIds(store.db)));
      var healthyNodes := store.ListHealthyNodes();
      var hasReplica := {};
      for i := 0 to |locations|
        invariant hasReplica == Elems(locations[..i])
      {
        assert Elems(locations[..i + 1]) == Elems(locations[..i]) + {locations[i]};
        hasReplica := hasReplica + {locations[i]};
      }
      assert locations[..|locations|] == locations;
      var target: Option<NodeRow> := None;
      for i := 0 to |healthyNodes|
        invariant target == None
        invariant forall j :: 0 <= j < i ==> healthyNodes[j].id in hasReplica
      {
        if healthyNodes[i].id !in hasReplica {
          target := Some(healthyNodes[i]);
          break;
        }
      }
      TargetExists(store.db, healthyNodes, hasReplica);
      if target.None? {
        return Ok(()), None;
      }
      assert target.value in Elems(healthyNodes);
      attempts := attempts + 1;
      var source := replicas[0];
      copy := Some(Transfer(source.id, target.value.id));
      var copied := RequestCopy(target.value.node.address, source.node.address, chunkId);
      if !copied {
        failures := failures + 1;
        return Err(CopyFailed), copy;
      }
      ghost var row := Location(chunkId, target.value.id);
      assert row in store.db.locations ==> row.nodeId in Replicas(store.db, chunkId);
      var recorded := store.AddChunkLocation(chunkId, target.value.id);
      if recorded.Err? {
        failures := failures + 1;
        return Err(Database(recorded.error)), copy;
      }
      successes := successes + 1;
      r := Ok(());
    }

    /** One scan run alone. Health is re-read for every location; errors skip the chunk and are counted. */
    method ScanOnce() returns (ghost failed: set<string>)
      requires registry.store == store && "" !in store.db.nodes
      modifies store, this
      ensures Scan(replicationFactor, old(store.db), store.db, failed)
      ensures forall f, c ::
        f in old(store.db).files && old(store.db).files[f].status == Committed && c in ChunkIds(old(store.db), f) && c !in failed ==>
          ScannedChunk(replicationFactor, HealthyIds(old(store.db)), Replicas(old(store.db), c), Replicas(store.db, c))
      ensures |requests| - |old(requests)| == attempts - old(attempts)
      ensures attempts - old(attempts) == (successes - old(successes)) + (failures - old(failures))
      ensures |failed| == failures - old(failures)
      ensures |store.db.locations| - |old(store.db).locations| == successes - old(successes)
    {
      failed := {};
      var chunks := store.ListCommittedChunks();
      ghost var before := store.db;
      for i := 0 to |chunks|
        invariant PartialScan(replicationFactor, before, store.db, Elems(chunks[..i]), failed)
        invariant attempts - old(attempts) == (successes - old(successes)) + (failures - old(failures))
        invariant |requests| - |old(requests)| == attempts - old(attempts)
        invariant |failed| == failures - old(failures)
        invariant |store.db.locations| - |before.locations| == successes - old(successes)
      {
        var chunkId := chunks[i];
        ghost var done := Elems(chunks[..i]);
        assert Elems(chunks[..i + 1]) == done + {chunkId};
        assert chunkId !in done;
        var locations := store.GetChunkLocations(chunkId);
        var healthyCount := CountHealthy(locations);
        ghost var db0 := store.db;
        if healthyCount < replicationFactor {
          ghost var copy;
          var r;
          r, copy := RepairChunk(chunkId, locations);
          if r.Err? {
            ChunkFailed(replicationFactor, before, db0, done, failed, chunkId);
            failed := failed + {chunkId};
          } else if copy.Some? {
            ChunkRepaired(replicationFactor, before, db0, store.db, done, failed, chunkId, copy.value);
          } else {
            ChunkLeft(replicationFactor, before, db0, done, failed, chunkId);
          }
        } else {
          ChunkLeft(replicationFactor, before, db0, done, failed, chunkId);
        }
      }
      assert chunks[..|chunks|] == chunks;
      forall f, c |
        f in before.files && before.files[f].status == Committed && c in ChunkIds(before, f) && c !in failed
        ensures ScannedChunk(replicationFactor, HealthyIds(before), Replicas(before, c), Replicas(store.db, c))
      {
        ScanLists(before, f, c);
      }
    }

    /** The number of listed nodes that are healthy right now. */
    method CountHealthy(locations: seq<string>) returns (healthyCount: nat)
      requires registry.store == store && "" !in store.db.nodes && NoDup(locations)
      ensures healthyCount == |Elems(locations) * HealthyIds(store.db)|
    {
      healthyCount := 0;
      for i := 0 to |locations|
        invariant healthyCount == |Elems(locations[..i]) * HealthyIds(store.db)|
      {
        var healthy := registry.IsNodeHealthy(locations[i]);
        CountOneMore(locations, i, HealthyIds(store.db));
        if healthy.Ok? && healthy.value {
          healthyCount := healthyCount + 1;
        }
      }
      assert locations[..|locations|] == locations;
    }
  }

  lemma CountOneMore(locations: seq<string>, i: nat, healthy: set<string>)
    requires NoDup(locations) && i < |locations|
    ensures |Elems(locations[..i + 1]) * healthy| == |Elems(locations[..i]) * healthy| + if locations[i] in healthy then 1 else 0
  {
    assert Elems(locations[..i + 1]) == Elems(locations[..i]) + {locations[i]};
    assert locations[i] !in Elems(locations[..i]);
    if locations[i] in healthy {
      assert Elems(locations[..i + 1]) * healthy == (Elems(locations[..i]) * healthy) + {locations[i]};
    } else {
      assert Elems(locations[..i + 1]) * healthy == Elems(locations[..i]) * healthy;
    }
  }

  lemma TargetExists(db: Db, nodes: seq<NodeRow>, holders: set<string>)
    requires Lists(nodes, HealthyRows(db))
    ensures (exists i :: 0 <= i < |nodes| && nodes[i].id !in holders) <==> HealthyIds(db) - holders != {}
    ensures forall i :: 0 <= i < |nodes| ==> nodes[i].id in HealthyIds(db)
  {
    forall i | 0 <= i < |nodes| ensures nodes[i].id in HealthyIds(db) {
      assert nodes[i] in Elems(nodes);
      assert nodes[i].id !in holders ==> nodes[i].id in HealthyIds(db) - holders;
    }
    if n :| n in HealthyIds(db) - holders {
      Registry.HealthyNamed(db, nodes, n);
    }
    if i :| 0 <= i < |nodes| && nodes[i].id !in holders {
      assert nodes[i].id in HealthyIds(db) - holders;
    }
  }

  lemma ChunkFailed(r: int, before: Db, now: Db, done: set<string>, failed: set<string>, c: string)
    requires PartialScan(r, before, now, done, failed) && c !in done
    ensures PartialScan(r, before, now, done + {c}, failed + {c})
  {
  }

  lemma ChunkLeft(r: int, before: Db, now: Db, done: set<string>, failed: set<string>, c: string)
    requires PartialScan(r, before, now, done, failed) && c !in done
    requires |Replicas(now, c) * HealthyIds(now)| >= r
             || Replicas(now, c) * HealthyIds(now) == {} || HealthyIds(now) - Replicas(now, c) == {}
    ensures PartialScan(r, before, now, done + {c}, failed)
  {
    assert Replicas(now, c) == Replicas(before, c);
  }

  lemma ChunkRepaired(r: int, before: Db, now: Db, next: Db, done: set<string>, failed: set<string>,
    c: string, copy: Transfer)
    requires PartialScan(r, before, now, done, failed) && c !in done
    requires |Replicas(now, c) * HealthyIds(now)| < r
    requires SoundTransfer(now, Replicas(now, c), copy) && Recorded(now, next, c, copy)
    ensures PartialScan(r, before, next, done + {c}, failed)
    ensures |next.locations| == |now.locations| + 1
  {
    var t := copy.target;
    RowAdded(now, next, c, t);
    assert Replicas(now, c) == Replicas(before, c);
    assert ScannedChunk(r, HealthyIds(before), Replicas(before, c), Replicas(next, c)) by {
      assert t in HealthyIds(before) - Replicas(before, c);
    }
    forall d | d != c ensures Replicas(next, d) == Replicas(now, d) {
    }
  }

  lemma RowAdded(now: Db, next: Db, c: string, t: string)
    requires next == now.(locations := now.locations + {Location(c, t)})
    ensures Replicas(next, c) == Replicas(now, c) + {t}
    ensures forall d :: d != c ==> Replicas(next, d) == Replicas(now, d)
    ensures Location(c, t) !in now.locations ==> |next.locations| == |now.locations| + 1
  {
    var l := Location(c, t);
    assert l in next.locations;
    forall n ensures n in Replicas(next, c) <==> n in Replicas(now, c) + {t} {
      assert n == t ==> l.nodeId in Replicas(next, c);
      assert n in Replicas(now, c) ==> Location(c, n) in next.locations;
    }
    forall d, n | d != c ensures n in Replicas(next, d) <==> n in Replicas(now, d) {
      assert n in Replicas(now, d) ==> Location(d, n) in next.locations;
    }
  }

  // ---- Convergence ----

  function Min(a: int, b: int): int {
    if a < b then a else b
  }

  function Max(a: int, b: int): int {
    if a < b then b else a
  }

  /** Healthy replicas after `k` scans, starting from `h` with `nodes` healthy nodes. */
  function Converged(r: int, nodes: int, h: int, k: nat): int {
    if h == 0 then 0 else Max(h, Min(r, Min(nodes, h + k)))
  }

  /** Pigeonhole: fewer healthy holders than healthy nodes leaves a healthy node without a replica. */
  lemma TargetByCounting(healthy: set<string>, holders: set<string>)
    ensures |holders * healthy| <= |healthy|
    ensures healthy - holders != {} <==> |holders * healthy| < |healthy|
  {
    assert healthy == (holders * healthy) + (healthy - holders);
    assert |healthy| == |holders * healthy| + |healthy - holders|;
  }

  lemma ScanCount(r: int, healthy: set<string>, before: set<string>, after: set<string>)
    requires ScannedChunk(r, healthy, before, after)
    ensures var h := |before * healthy|;
            && |after * healthy| == (if 0 < h < r && h < |healthy| then h + 1 else h)
            && (after == before <==> |after * healthy| == h)
  {
    TargetByCounting(healthy, before);
    if |before * healthy| < r && before * healthy != {} && healthy - before != {} {
      var t :| t in healthy - before && after == before + {t};
      assert after * healthy == (before * healthy) + {t};
    }
  }

  /** After k scans with the same healthy nodes and no failing copy, the number of healthy replicas has a closed form. */
  lemma {:induction false} ScansConverge(r: int, healthy: set<string>, history: seq<set<string>>, k: nat)
    requires k < |history|
    requires forall i :: 0 <= i < |history| - 1 ==> ScannedChunk(r, healthy, history[i], history[i + 1])
    ensures |history[k] * healthy| == Converged(r, |healthy|, |history[0] * healthy|, k)
  {
    TargetByCounting(healthy, history[0]);
    if k > 0 {
      ScansConverge(r, healthy, history, k - 1);
      ScanCount(r, healthy, history[k - 1], history[k]);
    }
  }

  /** The same for whole scans of the tables: every committed chunk converges at its own rate. */
  lemma DatabaseConverges(r: int, dbs: seq<Db>, f: string, c: string, k: nat)
    requires k < |dbs| && f in dbs[0].files && dbs[0].files[f].status == Committed && c in ChunkIds(dbs[0], f)
    requires forall i :: 0 <= i < |dbs| - 1 ==> Scan(r, dbs[i], dbs[i + 1], {})
    ensures |Replicas(dbs[k], c) * HealthyIds(dbs[0])|
            == Converged(r, |HealthyIds(dbs[0])|, |Replicas(dbs[0], c) * HealthyIds(dbs[0])|, k)
  {
    ScanLists(dbs[0], f, c);
    var history := seq(|dbs|, i requires 0 <= i < |dbs| => Replicas(dbs[i], c));
    forall i | 0 <= i < |history| - 1
      ensures ScannedChunk(r, HealthyIds(dbs[0]), history[i], history[i + 1])
    {
      SameTables(r, dbs, i);
      assert Scan(r, dbs[i], dbs[i + 1], {});
    }
    ScansConverge(r, HealthyIds(dbs[0]), history, k);
  }

  lemma {:induction false} SameTables(r: int, dbs: seq<Db>, i: nat)
    requires i < |dbs|
    requires forall j :: 0 <= j < |dbs| - 1 ==> Scan(r, dbs[j], dbs[j + 1], {})
    ensures dbs[i] == dbs[0].(locations := dbs[i].locations)
  {
    if i > 0 {
      SameTables(r, dbs, i - 1);
      assert Scan(r, dbs[i - 1], dbs[i], {});
    }
  }

  /** How many healthy replicas a repairable chunk still lacks. */
  ghost function Deficit(r: int, healthy: set<string>, holders: set<string>): nat {
    var h := |holders * healthy|;
    if h == 0 then 0 else Max(0, Min(r, |healthy|) - h)
  }

  ghost function DeficitOf(r: int, db: Db, c: string): nat {
    Deficit(r, HealthyIds(db), Replicas(db, c))
  }

  ghost function Deficits(r: int, db: Db, chunks: seq<string>): seq<nat> {
    seq(|chunks|, i requires 0 <= i < |chunks| => DeficitOf(r, db, chunks[i]))
  }

  ghost function Sum(xs: seq<nat>): nat {
    if xs == [] then 0 else Sum(xs[..|xs| - 1]) + xs[|xs| - 1]
  }

  ghost function TotalDeficit(r: int, db: Db, chunks: seq<string>): nat {
    Sum(Deficits(r, db, chunks))
  }

  lemma {:induction false} SumLowered(xs: seq<nat>, ys: seq<nat>)
    requires |xs| == |ys| && forall i :: 0 <= i < |xs| ==> ys[i] == if xs[i] == 0 then 0 else xs[i] - 1
    ensures Sum(ys) <= Sum(xs)
    ensures Sum(xs) > 0 ==> Sum(ys) < Sum(xs)
    ensures Sum(xs) == 0 <==> forall i :: 0 <= i < |xs| ==> xs[i] == 0
  {
    if xs != [] {
      var n := |xs| - 1;
      SumLowered(xs[..n], ys[..n]);
      if Sum(xs) == 0 {
        forall i | 0 <= i < |xs| ensures xs[i] == 0 {
          assert i < n ==> xs[..n][i] == xs[i];
        }
      }
    }
  }

  lemma ScanDeficit(r: int, healthy: set<string>, before: set<string>, after: set<string>)
    requires ScannedChunk(r, healthy, before, after)
    ensures Deficit(r, healthy, after) == Max(0, Deficit(r, healthy, before) - 1)
    ensures after == before <==> Deficit(r, healthy, before) == 0
  {
    ScanCount(r, healthy, before, after);
    TargetByCounting(healthy, before);
  }

  lemma ScannedDeficit(r: int, before: Db, after: Db, c: string)
    requires Scan(r, before, after, {}) && c in CommittedChunks(before)
    ensures DeficitOf(r, after, c) == if DeficitOf(r, before, c) == 0 then 0 else DeficitOf(r, before, c) - 1
    ensures Unchanged(before, after, c) <==> DeficitOf(r, before, c) == 0
  {
    ScanDeficit(r, HealthyIds(before), Replicas(before, c), Replicas(after, c));
    assert HealthyIds(after) == HealthyIds(before);
  }

  ghost predicate Unchanged(before: Db, after: Db, c: string) {
    Replicas(after, c) == Replicas(before, c)
  }

  /** A failure-free scan lowers the total deficit, unless that is zero, and then it changes no chunk. */
  lemma ScanProgress(r: int, before: Db, after: Db, chunks: seq<string>)
    requires Scan(r, before, after, {})
    requires forall i :: 0 <= i < |chunks| ==>
      exists f :: f in before.files && before.files[f].status == Committed && chunks[i] in ChunkIds(before, f)
    ensures TotalDeficit(r, before, chunks) > 0 ==> TotalDeficit(r, after, chunks) < TotalDeficit(r, before, chunks)
    ensures TotalDeficit(r, before, chunks) == 0 <==> forall i :: 0 <= i < |chunks| ==> Unchanged(before, after, chunks[i])
  {
    var xs, ys := Deficits(r, before, chunks), Deficits(r, after, chunks);
    forall i | 0 <= i < |chunks|
      ensures ys[i] == if xs[i] == 0 then 0 else xs[i] - 1
      ensures Unchanged(before, after, chunks[i]) <==> xs[i] == 0
    {
      var f :| f in before.files && before.files[f].status == Committed && chunks[i] in ChunkIds(before, f);
      ScanLists(before, f, chunks[i]);
      ScannedDeficit(r, before, after, chunks[i]);
    }
    SumLowered(xs, ys);
  }

  /** Whichever attempts fail, a scan takes no row away, adds at most one per chunk, and lifts no chunk above the
      replication factor. */
  lemma NeverAboveFactor(r: int, before: Db, after: Db, failed: set<string>, c: string)
    requires Scan(r, before, after, failed)
    ensures Replicas(before, c) <= Replicas(after, c)
    ensures |Replicas(after, c) - Replicas(before, c)| <= 1
    ensures |Replicas(after, c) * HealthyIds(before)| <= Max(r, |Replicas(before, c) * HealthyIds(before)|)
  {
    var healthy, was, now := HealthyIds(before), Replicas(before, c), Replicas(after, c);
    if now != was {
      ScanCount(r, healthy, was, now);
      var t :| t in healthy - was && now == was + {t};
      assert now - was == {t};
    }
  }
}
