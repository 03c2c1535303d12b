/** The metadata control plane and the storage nodes as one interleaved state machine. Every step is one
    SQL statement, one transaction, one RPC to a storage node, or one reading of the clock. */
module ControlPlane {
  import opened Prelude
  import opened Tables
  import opened ChunkPlan
  import opened FileLifecycle
  import opened CopyChunk
  import ChunkFile
  import Placement
  import Registry
  import Repair

  /** `r` is the replication factor, `timeout` the failure timeout in nanoseconds, `home(n)` the address
      at which node `n` really listens. */
  datatype Config = Config(r: int, chunkSize: int, timeout: int, sha: ChunkFile.Sha, home: string -> string)

  /** A client request between two of its statements. */
  datatype Client =
    | Placing(name: string, size: int, nodes: seq<NodeRow>)   // PrepareUpload has listed the healthy nodes
    | Deleting(fileId: string)                                // DeleteFile has found the file
    | Beating(nodeId: string, address: string, at: int)       // a heartbeat has read the clock
    | Inserting(nodeId: string, address: string, at: int)     // its UPDATE matched no row

  datatype Monitor =
    | Resting
    | Listed(nodes: seq<NodeRow>, listedAt: int)
    | Passing(nodes: seq<NodeRow>, listedAt: int, now: int, next: nat)

  /** How far the repair goroutine is with the current chunk. */
  datatype Phase =
    | Next
    | Counting(next: nat, healthy: nat)
    | Gathering(next: nat, replicas: seq<NodeRow>)
    | Looking(next: nat, replicas: seq<NodeRow>)
    | Choosing(source: NodeRow)
    | Fetching(source: NodeRow, target: NodeRow)
    | Storing(source: NodeRow, target: NodeRow, data: ChunkFile.Bytes)
    | Recording(source: NodeRow, target: NodeRow, data: ChunkFile.Bytes)

  datatype Scanner =
    | Idle
    | Scanning(chunks: seq<string>, index: nat, locations: seq<string>, phase: Phase)

  /** What happened so far; no step reads it. */
  datatype History = History(
    layout: map<string, seq<ChunkRow>>,            // file to its chunk rows, in order
    sessionOf: map<string, string>,                // file to its session
    plans: map<string, map<string, seq<string>>>,  // session to the placement returned by PrepareUpload
    everCommitted: set<string>,
    commitRows: nat,                               // location rows inserted by commits
    attempts: nat,
    failures: nat,
    successes: nat,
    lost: nat,                                     // attempts cut off by a restart
    beatAt: map<string, int>)                      // node to the instant of its last stored heartbeat

  datatype State = State(
    db: Db,
    clock: int,
    clients: map<nat, Client>,
    monitor: Monitor,
    scanner: Scanner,
    disks: map<string, Disk>,
    history: History)

  datatype ClientStep =
    | PrepareList(client: nat, name: string, size: int, nodes: seq<NodeRow>)
    | PrepareWrite(client: nat, fileId: string, sessionId: string, ids: seq<string>, plan: map<string, seq<string>>)
    | Commit(sessionId: string, replicaMap: map<string, seq<string>>)
    | DeleteRead(client: nat, fileId: string)
    | DeleteWrite(client: nat)
    | BeatStart(client: nat, nodeId: string, address: string)
    | BeatUpdate(client: nat)
    | BeatInsert(client: nat)
    | Drop(client: nat)                            // the request ends in an error or is abandoned

  datatype MonitorStep =
    | MonitorList(nodes: seq<NodeRow>)
    | MonitorClock
    | MonitorNode
    | MonitorEnd
    | MonitorGlitch                                // UpdateNodeStatus fails; its error is ignored

  datatype ScanStep =
    | ScanList(chunks: seq<string>)
    | ScanEnd
    | ScanLocations(locations: seq<string>)
    | ScanHealth
    | ScanLook(nodes: seq<NodeRow>)
    | ScanDecide
    | ScanChoose(nodes: seq<NodeRow>)
    | ScanFetch
    | ScanStore
    | ScanRecord
    | ScanGlitch                                   // a statement or RPC fails for reasons of its own

  datatype DiskStep =
    | PutChunk(address: string, id: string, data: ChunkFile.Bytes)
    | OverwriteChunk(address: string, id: string, data: ChunkFile.Bytes)   // the later rename of two overlapping Puts
    | DeleteChunk(address: string, id: string)

  datatype Step =
    | Tick(elapsed: nat)
    | Restart                                      // the metadata server dies and comes back with its tables
    | ByClient(client: ClientStep)
    | ByMonitor(monitor: MonitorStep)
    | ByScanner(scan: ScanStep)
    | ByDisk(disk: DiskStep)

  // ---- Clients ----

  ghost predicate ClientEnabled(c: Config, s: State, step: ClientStep) {
    match step
    case PrepareList(t, _, size, nodes) =>
      // The RPC rejects sizes that are not positive; a negative chunk count panics before the listing.
      && t !in s.clients && 0 < size && IsInt64(size) && IsInt64(c.chunkSize)
      && c.chunkSize > 0 && ChunkCount(size, c.chunkSize) >= 0
      && Lists(nodes, HealthyRows(s.db))
    case PrepareWrite(t, _, _, ids, plan) =>
      && t in s.clients && s.clients[t].Placing? && c.chunkSize > 0
      && 0 < c.r <= |s.clients[t].nodes|
      && |ids| == ChunkCount(s.clients[t].size, c.chunkSize)
      && Placement.ValidPlacement(c.r, Elems(ids), s.clients[t].nodes, plan)
    case Commit(_, _) => true
    case DeleteRead(t, _) => t !in s.clients
    case DeleteWrite(t) => t in s.clients && s.clients[t].Deleting?
    case BeatStart(t, n, _) => t !in s.clients && n != ""
    case BeatUpdate(t) => t in s.clients && s.clients[t].Beating?
    case BeatInsert(t) => t in s.clients && s.clients[t].Inserting?
    case Drop(t) => t in s.clients
  }

  ghost function RowCount(m: map<string, seq<string>>): nat {
    |RowsOf(m)|
  }

  ghost function ApplyPrepare(s: State, step: ClientStep, rows: seq<ChunkRow>): State
    requires step.PrepareWrite? && step.client in s.clients && s.clients[step.client].Placing?
  {
    var k := s.clients[step.client];
    var rest := s.clients - {step.client};
    match PrepareRows(s.db, step.fileId, step.sessionId, k.name, k.size, rows)
    case Err(_) => s.(clients := rest)
    case Ok(d) =>
      s.(db := d, clients := rest, history := s.history.(
        layout := s.history.layout[step.fileId := rows],
        sessionOf := s.history.sessionOf[step.fileId := step.sessionId],
        plans := s.history.plans[step.sessionId := step.plan]))
  }

  ghost function ApplyCommit(c: Config, s: State, sessionId: string, m: map<string, seq<string>>): State {
    var d := AfterCommit(s.db, c.r, sessionId, m);
    if CommitWrites(s.db, c.r, sessionId, m) then
      s.(db := d, history := s.history.(
        everCommitted := s.history.everCommitted + {s.db.sessions[sessionId].fileId},
        commitRows := s.history.commitRows + RowCount(m)))
    else s
  }

  ghost function ApplyClient(c: Config, s: State, step: ClientStep): State
    requires ClientEnabled(c, s, step)
  {
    match step
    case PrepareList(t, name, size, nodes) => s.(clients := s.clients[t := Placing(name, size, nodes)])
    case PrepareWrite(t, f, _, ids, _) => ApplyPrepare(s, step, PlanRows(f, s.clients[t].size, c.chunkSize, ids))
    case Commit(sessionId, m) => ApplyCommit(c, s, sessionId, m)
    case DeleteRead(t, f) => if f in s.db.files then s.(clients := s.clients[t := Deleting(f)]) else s
    case DeleteWrite(t) =>
      s.(db := SetFileStatus(s.db, s.clients[t].fileId, Deleted), clients := s.clients - {t})
    case BeatStart(t, n, a) => s.(clients := s.clients[t := Beating(n, a, s.clock)])
    case BeatUpdate(t) =>
      var k := s.clients[t];
      if k.nodeId in s.db.nodes then
        s.(db := Beat(s.db, k.nodeId, k.address, Registry.UnixSecond(k.at)), clients := s.clients - {t},
           history := s.history.(beatAt := s.history.beatAt[k.nodeId := k.at]))
      else s.(clients := s.clients[t := Inserting(k.nodeId, k.address, k.at)])
    case BeatInsert(t) =>
      var k := s.clients[t];
      (match InsertNode(s.db, k.nodeId, Node(k.address, Healthy, Registry.UnixSecond(k.at)))
       case Err(_) => s.(clients := s.clients - {t})
       case Ok(d) => s.(db := d, clients := s.clients - {t},
                        history := s.history.(beatAt := s.history.beatAt[k.nodeId := k.at])))
    case Drop(t) => s.(clients := s.clients - {t})
  }

  // ---- Monitor ----

  ghost predicate MonitorEnabled(s: State, step: MonitorStep) {
    match step
    case MonitorList(nodes) => s.monitor.Resting? && Lists(nodes, NodeRows(s.db))
    case MonitorClock => s.monitor.Listed?
    case MonitorNode => s.monitor.Passing? && s.monitor.next < |s.monitor.nodes|
    case MonitorEnd => s.monitor.Passing? && s.monitor.next == |s.monitor.nodes|
    case MonitorGlitch => s.monitor.Passing? && s.monitor.next < |s.monitor.nodes|
  }

  ghost function ApplyMonitor(c: Config, s: State, step: MonitorStep): State
    requires MonitorEnabled(s, step)
  {
    match step
    case MonitorList(nodes) => s.(monitor := Listed(nodes, s.clock))
    case MonitorClock => s.(monitor := Passing(s.monitor.nodes, s.monitor.listedAt, s.clock, 0))
    case MonitorNode =>
      var row := s.monitor.nodes[s.monitor.next];
      var moved := s.(monitor := s.monitor.(next := s.monitor.next + 1));
      (match Registry.Verdict(row.node, s.monitor.now, c.timeout)
       case None => moved
       case Some(status) => moved.(db := SetNodeStatus(s.db, row.id, status)))
    case MonitorEnd => s.(monitor := Resting)
    case MonitorGlitch => s.(monitor := s.monitor.(next := s.monitor.next + 1))
  }

  // ---- Repair scanner ----

  ghost predicate Copying(p: Phase) {
    p.Fetching? || p.Storing? || p.Recording?
  }

  ghost predicate AtChunk(k: Scanner) {
    k.Scanning? && k.index < |k.chunks|
  }

  ghost predicate ScanEnabled(s: State, step: ScanStep) {
    var k := s.scanner;
    match step
    case ScanList(chunks) => k.Idle? && Lists(chunks, CommittedChunks(s.db))
    case ScanEnd => k.Scanning? && k.phase.Next? && k.index >= |k.chunks|
    case ScanLocations(q) => AtChunk(k) && k.phase.Next? && Lists(q, Replicas(s.db, k.chunks[k.index]))
    case ScanHealth => AtChunk(k) && (k.phase.Counting? || k.phase.Gathering?) && k.phase.next < |k.locations|
    case ScanLook(nodes) => AtChunk(k) && k.phase.Looking? && k.phase.next < |k.locations| && Lists(nodes, HealthyRows(s.db))
    case ScanDecide => AtChunk(k) && (k.phase.Counting? || k.phase.Gathering?) && k.phase.next >= |k.locations|
    case ScanChoose(nodes) => AtChunk(k) && k.phase.Choosing? && Lists(nodes, HealthyRows(s.db))
    case ScanFetch => AtChunk(k) && k.phase.Fetching?
    case ScanStore => AtChunk(k) && k.phase.Storing?
    case ScanRecord => AtChunk(k) && k.phase.Recording?
    case ScanGlitch => AtChunk(k)
  }

  function Find(nodes: seq<NodeRow>, id: string): Option<NodeRow> {
    if nodes == [] then None else if nodes[0].id == id then Some(nodes[0]) else Find(nodes[1..], id)
  }

  /** Give up on, or finish with, the current chunk. */
  function Advance(k: Scanner): Scanner
    requires k.Scanning?
  {
    Scanning(k.chunks, k.index + 1, [], Next)
  }

  function Failed(s: State): State
    requires s.scanner.Scanning?
  {
    s.(scanner := Advance(s.scanner), history := s.history.(failures := s.history.failures + 1))
  }

  ghost function ApplyHealth(s: State): State
    requires ScanEnabled(s, ScanHealth)
  {
    var k := s.scanner;
    var n := k.locations[k.phase.next];
    var healthy := n != "" && n in HealthyIds(s.db);
    match k.phase
    case Counting(i, h) => s.(scanner := k.(phase := Counting(i + 1, if healthy then h + 1 else h)))
    case Gathering(i, q) => s.(scanner := k.(phase := if healthy then Looking(i, q) else Gathering(i + 1, q)))
    case _ => s
  }

  ghost function ApplyDecide(c: Config, s: State): State
    requires ScanEnabled(s, ScanDecide)
  {
    var k := s.scanner;
    match k.phase
    case Counting(_, h) => s.(scanner := if h < c.r then k.(phase := Gathering(0, [])) else Advance(k))
    case Gathering(_, q) => s.(scanner := if q == [] then Advance(k) else k.(phase := Choosing(q[0])))
    case _ => s
  }

  ghost function ApplyGlitch(s: State): State
    requires ScanEnabled(s, ScanGlitch)
  {
    var k := s.scanner;
    match k.phase
    case Next => s.(scanner := Advance(k))
    case Counting(i, h) => s.(scanner := k.(phase := Counting(i + 1, h)))
    case Gathering(i, q) => s.(scanner := k.(phase := Gathering(i + 1, q)))
    case Looking(i, q) => s.(scanner := k.(phase := Gathering(i + 1, q)))
    case Choosing(_) => s.(scanner := Advance(k))
    case _ => Failed(s)
  }

  ghost function ApplyTransfer(c: Config, s: State, step: ScanStep): State
    requires ScanEnabled(s, step) && (step.ScanFetch? || step.ScanStore? || step.ScanRecord?)
  {
    var k := s.scanner;
    var id := k.chunks[k.index];
    match step
    case ScanFetch =>
      var a := k.phase.source.node.address;
      if a !in s.disks || id == "" then Failed(s)
      else (match Read(c.sha, s.disks[a], id)
            case Err(_) => Failed(s)
            case Ok(data) => s.(scanner := k.(phase := Storing(k.phase.source, k.phase.target, data))))
    case ScanStore =>
      var a := k.phase.target.node.address;
      if a !in s.disks then Failed(s)
      else
        var put := ChunkFile.PutChunk(c.sha, s.disks[a].base, s.disks[a].files, id, k.phase.data);
        var disks := s.disks[a := s.disks[a].(files := put.files)];
        if put.outcome.Ok? then
          s.(disks := disks, scanner := k.(phase := Recording(k.phase.source, k.phase.target, k.phase.data)))
        else Failed(s)
    case ScanRecord =>
      match InsertLocation(s.db, Location(id, k.phase.target.id))
      case Err(_) => Failed(s)
      case Ok(d) => s.(db := d, scanner := Advance(k),
                       history := s.history.(successes := s.history.successes + 1))
  }

  ghost function ApplyScan(c: Config, s: State, step: ScanStep): State
    requires ScanEnabled(s, step)
  {
    var k := s.scanner;
    match step
    case ScanList(chunks) => s.(scanner := Scanning(chunks, 0, [], Next))
    case ScanEnd => s.(scanner := Idle)
    case ScanLocations(q) => s.(scanner := Scanning(k.chunks, k.index, q, Counting(0, 0)))
    case ScanHealth => ApplyHealth(s)
    case ScanLook(nodes) =>
      (match Find(nodes, k.locations[k.phase.next])
       case Some(n) => s.(scanner := k.(phase := Gathering(k.phase.next + 1, k.phase.replicas + [n])))
       case None => s.(scanner := k.(phase := Gathering(k.phase.next + 1, k.phase.replicas))))
    case ScanDecide => ApplyDecide(c, s)
    case ScanChoose(nodes) =>
      (match Repair.FirstWithout(nodes, Elems(k.locations))
       case None => s.(scanner := Advance(k))
       case Some(n) => s.(scanner := k.(phase := Fetching(k.phase.source, n)),
                          history := s.history.(attempts := s.history.attempts + 1)))
    case ScanGlitch => ApplyGlitch(s)
    case _ => ApplyTransfer(c, s, step)
  }

  // ---- Storage nodes serving clients ----

  ghost predicate DiskEnabled(s: State, step: DiskStep) {
    && step.address in s.disks && step.id != ""
    && (step.OverwriteChunk? ==>
          && |step.data| <= ChunkFile.MAX_SIZE
          && ChunkFile.Path(s.disks[step.address].base, step.id) in s.disks[step.address].files)
  }

  ghost function ApplyDisk(c: Config, s: State, step: DiskStep): State
    requires DiskEnabled(s, step)
  {
    var d := s.disks[step.address];
    var files := match step
      case PutChunk(_, id, data) => ChunkFile.PutChunk(c.sha, d.base, d.files, id, data).files
      case OverwriteChunk(_, id, data) => ChunkFile.OverwriteChunk(c.sha, d.base, d.files, id, data)
      case DeleteChunk(_, id) => ChunkFile.DeleteChunk(d.base, d.files, id);
    s.(disks := s.disks[step.address := d.(files := files)])
  }

  // ---- Crash and restart of the metadata server ----

  /** Between two statements everything is lost but the tables: requests, the monitor's pass, the repair scan. */
  ghost function ApplyRestart(s: State): State {
    s.(clients := map[], monitor := Resting, scanner := Idle,
       history := s.history.(lost := s.history.lost + if s.scanner.Scanning? && Copying(s.scanner.phase) then 1 else 0))
  }

  // ---- Steps and runs ----

  ghost predicate Enabled(c: Config, s: State, step: Step) {
    match step
    case Tick(_) => true
    case Restart => true
    case ByClient(x) => ClientEnabled(c, s, x)
    case ByMonitor(x) => MonitorEnabled(s, x)
    case ByScanner(x) => ScanEnabled(s, x)
    case ByDisk(x) => DiskEnabled(s, x)
  }

  ghost function Apply(c: Config, s: State, step: Step): State
    requires Enabled(c, s, step)
  {
    match step
    case Tick(d) => s.(clock := s.clock + d)
    case Restart => ApplyRestart(s)
    case ByClient(x) => ApplyClient(c, s, x)
    case ByMonitor(x) => ApplyMonitor(c, s, x)
    case ByScanner(x) => ApplyScan(c, s, x)
    case ByDisk(x) => ApplyDisk(c, s, x)
  }

  const EmptyHistory := History(map[], map[], map[], {}, 0, 0, 0, 0, 0, map[])

  /** Empty tables, nothing running; clock and disks are arbitrary. */
  ghost predicate Init(s: State) {
    s == State(EmptyDb, s.clock, map[], Resting, Idle, s.disks, EmptyHistory)
  }

  ghost predicate IsRun(c: Config, states: seq<State>, steps: seq<Step>) {
    && |states| == |steps| + 1
    && forall i :: 0 <= i < |steps| ==> Enabled(c, states[i], steps[i]) && states[i + 1] == Apply(c, states[i], steps[i])
  }

  ghost predicate IsRunFromInit(c: Config, states: seq<State>, steps: seq<Step>) {
    IsRun(c, states, steps) && Init(states[0])
  }
}
