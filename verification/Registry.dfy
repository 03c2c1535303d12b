/** Node liveness: heartbeats stored in whole seconds, and the monitor that flips statuses. */
module Registry {
  import opened Prelude
  import opened Tables
  import SqliteStore

  /** Instants are nanoseconds since the Unix epoch. */
  const SECOND := 1_000_000_000

  /** What time.Now().Unix() stores for a (non-negative) instant. */
  function UnixSecond(instant: int): int {
    instant / SECOND
  }

  function Stale(node: Node, now: int, timeout: int): bool {
    now - node.lastHeartbeat * SECOND > timeout
  }

  /** The status the monitor writes for a listed node, or None when it writes nothing. */
  function Verdict(node: Node, now: int, timeout: int): Option<NodeStatus> {
    if Stale(node, now, timeout) && node.status == Healthy then Some(Down)
    else if !Stale(node, now, timeout) && node.status == Down then Some(Healthy)
    else None
  }

  lemma HealthyNamed(db: Db, q: seq<NodeRow>, n: string)
    requires Lists(q, HealthyRows(db))
    ensures n in HealthyIds(db) <==> exists j :: 0 <= j < |q| && q[j].id == n
  {
    if n in HealthyIds(db) {
      assert NodeRow(n, db.nodes[n]) in Elems(q);
    }
    forall j | 0 <= j < |q| ensures q[j].id in HealthyIds(db) {
      assert q[j] in Elems(q);
    }
  }

  datatype Error = EmptyNodeId | Database(e: DbError)

  class Manager {
    const store: SqliteStore.Store
    const failureTimeout: int

    constructor (s: SqliteStore.Store, timeout: int)
      ensures store == s && failureTimeout == timeout
    {
      store, failureTimeout := s, timeout;
    }

    method Heartbeat(nodeId: string, address: string, now: int) returns (r: Result<(), Error>)
      modifies store
      ensures r.Ok? <==> nodeId != ""
      ensures store.db == if nodeId == "" then old(store.db)
        else old(store.db).(nodes := old(store.db).nodes[nodeId := Node(address, Healthy, UnixSecond(now))])
      ensures r.Ok? ==> nodeId in store.db.nodes
      ensures r.Ok? ==> store.db.nodes[nodeId].lastHeartbeat * 1_000_000_000 <= now
                        < store.db.nodes[nodeId].lastHeartbeat * 1_000_000_000 + 1_000_000_000
    {
      if nodeId == "" {
        return Err(EmptyNodeId);
      }
      var res := store.UpsertNodeHeartbeat(nodeId, address, UnixSecond(now));
      r := Ok(());
    }

    /** A search loop over the healthy nodes. */
    method IsNodeHealthy(nodeId: string) returns (r: Result<bool, Error>)
      ensures r.Err? <==> nodeId == ""
      ensures r.Ok? ==> (r.value <==> nodeId in HealthyIds(store.db))
      ensures r.Ok? ==> (r.value <==> nodeId in store.db.nodes && store.db.nodes[nodeId].status == Healthy)
    {
      if nodeId == "" {
        return Err(EmptyNodeId);
      }
      var nodes := store.ListHealthyNodes();
      HealthyNamed(store.db, nodes, nodeId);
      for i := 0 to |nodes|
        invariant forall j :: 0 <= j < i ==> nodes[j].id != nodeId
      {
        if nodes[i].id == nodeId {
          return Ok(true);
        }
      }
      r := Ok(false);
    }

    /** One pass run alone: from any assignment of statuses, a node ends healthy exactly when it is fresh. */
    method MonitorOnce(now: int)
      modifies store
      ensures store.db == old(store.db).(nodes := store.db.nodes)
      ensures store.db.nodes.Keys == old(store.db).nodes.Keys
      ensures forall n :: n in store.db.nodes ==>
        && store.db.nodes[n] == old(store.db).nodes[n].(status := store.db.nodes[n].status)
        && (store.db.nodes[n].status == Healthy <==> now - old(store.db).nodes[n].lastHeartbeat * 1_000_000_000 <= failureTimeout)
    {
      var nodes := store.ListAllNodes();
      ghost var before := store.db;
      ListingIdsDistinct(before, nodes);
      for i := 0 to |nodes|
        invariant store.db == before.(nodes := store.db.nodes)
        invariant store.db.nodes.Keys == before.nodes.Keys
        invariant forall j :: 0 <= j < i ==>
          (store.db.nodes[nodes[j].id] ==
           nodes[j].node.(status := if Stale(nodes[j].node, now, failureTimeout) then Down else Healthy))
        invariant forall j :: i <= j < |nodes| ==> store.db.nodes[nodes[j].id] == nodes[j].node
      {
        var row := nodes[i];
        var stale := Stale(row.node, now, failureTimeout);
        if stale && row.node.status == Healthy {
          store.UpdateNodeStatus(row.id, Down);
        }
        if !stale && row.node.status == Down {
          store.UpdateNodeStatus(row.id, Healthy);
        }
      }
      forall n | n in store.db.nodes ensures exists j :: 0 <= j < |nodes| && nodes[j].id == n {
        assert NodeRow(n, before.nodes[n]) in Elems(nodes);
        var j :| 0 <= j < |nodes| && nodes[j] == NodeRow(n, before.nodes[n]);
      }
    }
  }
}
