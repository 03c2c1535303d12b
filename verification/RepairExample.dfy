/** Runs for any hash and payload: repair copies a chunk under the assumptions of ReplicaAgreement and InterleavedScan,
    and lifts a chunk above the factor when a holder rises late or a query fails. */
module RepairExample {
  import opened Prelude
  import opened Tables
  import opened ControlPlane
  import opened ReplicaRows
  import opened ReplicaAgreement
  import opened InterleavedScan
  import opened CopyChunk
  import ChunkFile
  import ChunkPlan
  import FileLifecycle
  import Placement
  import Repair

  ghost function Last(states: seq<State>): State
    requires states != []
  {
    states[|states| - 1]
  }

  /** Replication factor 2. Node n2 listens at address b; every other ID stands for the node at address a. */
  ghost function Setting(sha: ChunkFile.Sha): Config {
    Config(2, 4, 10, sha, n => if n == "n2" then "b" else "a")
  }

  const FirstRow := NodeRow("n1", Node("a", Healthy, 0))
  const SecondRow := NodeRow("n2", Node("b", Healthy, 0))

  /** Only the node at address a has the chunk. */
  ghost function Disks(sha: ChunkFile.Sha, data: ChunkFile.Bytes): map<string, Disk> {
    map["a" := Disk("", map[ChunkFile.Path("", "X") := ChunkFile.Encode(sha, data)]), "b" := Disk("", map[])]
  }

  ghost predicate IsFair(c: Config, step: Step, x: string) {
    && !step.ByDisk?
    && (step.ByClient? && step.client.BeatStart? ==> step.client.address == c.home(step.client.nodeId))
  }

  lemma Extend(c: Config, states: seq<State>, steps: seq<Step>, step: Step, x: string, payloads: set<ChunkFile.Bytes>)
    returns (states': seq<State>, steps': seq<Step>)
    requires FairRun(c, states, steps, x, payloads, 0) && states != [] && Enabled(c, Last(states), step) && IsFair(c, step, x)
    ensures states' != [] && FairRun(c, states', steps', x, payloads, 0)
    ensures steps' == steps + [step] && states' == states + [Apply(c, Last(states), step)]
    ensures Last(states') == Apply(c, Last(states), step)
  {
    states', steps' := states + [Apply(c, Last(states), step)], steps + [step];
    hide Enabled, Apply, FilesKnown;
    assert states'[0] == states[0];
    assert forall i :: 0 <= i < |states| ==> states'[i] == states[i];
    assert forall i :: 0 <= i < |steps| ==> steps'[i] == steps[i];
    forall i | 0 <= i < |steps'|
      ensures Enabled(c, states'[i], steps'[i]) && states'[i + 1] == Apply(c, states'[i], steps'[i])
    {
      if i < |steps| {
        assert steps'[i] == steps[i];
      }
    }
  }

  lemma Start(sha: ChunkFile.Sha, data: ChunkFile.Bytes) returns (states: seq<State>, steps: seq<Step>)
    requires |data| <= ChunkFile.MAX_SIZE
    ensures states != [] && FairRun(Setting(sha), states, steps, "X", {data}, 0)
    ensures Last(states) == State(EmptyDb, 0, map[], Resting, Idle, Disks(sha, data), EmptyHistory)
  {
    ChunkFile.MaxSizeFits();
    ChunkFile.IntactIffEncoded(sha, ChunkFile.Encode(sha, data), data);
    states, steps := [State(EmptyDb, 0, map[], Resting, Idle, Disks(sha, data), EmptyHistory)], [];
    hide ChunkFile.Encode, ChunkFile.Intact, ChunkFile.Path;
  }

  /** A new node's first heartbeat. */
  lemma Register(c: Config, states: seq<State>, steps: seq<Step>, n: string, payloads: set<ChunkFile.Bytes>)
    returns (states': seq<State>, steps': seq<Step>)
    requires FairRun(c, states, steps, "X", payloads, 0) && states != []
    requires n != "" && n !in Last(states).db.nodes && Last(states).clients == map[] && Last(states).clock == 0
    ensures states' != [] && FairRun(c, states', steps', "X", payloads, 0)
    ensures var s := Last(states);
            Last(states') == s.(db := s.db.(nodes := s.db.nodes[n := Node(c.home(n), Healthy, 0)]),
                                history := s.history.(beatAt := s.history.beatAt[n := 0]))
    ensures states <= states' && steps <= steps' && forall k :: |steps| <= k < |steps'| ==> steps'[k].ByClient?
  {
    hide FairRun;
    states', steps' := Extend(c, states, steps, ByClient(BeatStart(0, n, c.home(n))), "X", payloads);
    assert Last(states').clients == map[0 := Beating(n, c.home(n), 0)];
    states', steps' := Extend(c, states', steps', ByClient(BeatUpdate(0)), "X", payloads);
    assert Last(states').clients == map[0 := Inserting(n, c.home(n), 0)];
    states', steps' := Extend(c, states', steps', ByClient(BeatInsert(0)), "X", payloads);
    assert Last(states').clients == map[];
  }

  ghost function TwoNodes(): Db {
    EmptyDb.(nodes := map["n1" := FirstRow.node, "n2" := SecondRow.node])
  }

  lemma NodesListed(db: Db)
    requires db.nodes == TwoNodes().nodes
    ensures Lists([FirstRow, SecondRow], HealthyRows(db)) && HealthyIds(db) == {"n1", "n2"}
  {
    assert FirstRow == NodeRow("n1", db.nodes["n1"]) && SecondRow == NodeRow("n2", db.nodes["n2"]);
    assert HealthyRows(db) == {FirstRow, SecondRow};
  }

  lemma Registered(sha: ChunkFile.Sha, data: ChunkFile.Bytes) returns (states: seq<State>, steps: seq<Step>)
    requires |data| <= ChunkFile.MAX_SIZE
    ensures states != [] && FairRun(Setting(sha), states, steps, "X", {data}, 0)
    ensures var s := Last(states);
            && s.db == TwoNodes() && s.clock == 0 && s.clients == map[]
            && s.scanner == Idle && s.disks == Disks(sha, data)
  {
    hide FairRun, Disks;
    states, steps := Start(sha, data);
    states, steps := Register(Setting(sha), states, steps, "n1", {data});
    states, steps := Register(Setting(sha), states, steps, "n2", {data});
  }

  // ---- An upload committed with a node that is not registered ----

  const Row := ChunkRow("X", Chunk("F", 0, 1))

  ghost function Prepared(): Db {
    TwoNodes().(files := map["F" := File("", 1, Pending)], chunks := map["X" := Row.chunk],
                sessions := map["S" := Session("F", Preparing)])
  }

  ghost function Holders(): map<string, seq<string>> {
    map["X" := ["n1", "n0"]]
  }

  ghost function CommittedDb(): Db {
    Prepared().(files := map["F" := File("", 1, Committed)], sessions := map["S" := Session("F", Finished)],
                locations := {Location("X", "n1"), Location("X", "n0")})
  }

  lemma PlannedRow()
    ensures ChunkPlan.ChunkCount(1, 4) == 1
    ensures ChunkPlan.PlanRows("F", 1, 4, ["X"]) == [Row]
  {
    ChunkPlan.WrapInRange(5);
    ChunkPlan.WrapInRange(4);
    ChunkPlan.WrapInRange(1);
    ChunkPlan.WrapInRange(0);
    hide ChunkPlan.Wrap64;
  }

  lemma PreparedTables()
    ensures FileLifecycle.PrepareRows(TwoNodes(), "F", "S", "", 1, [Row]) == Ok(Prepared())
  {
    var b := TwoNodes().(files := map["F" := File("", 1, Pending)], sessions := map["S" := Session("F", Preparing)]);
    assert InsertChunkRows(b, []) == Ok(b);
    assert [Row][..0] == [];
    assert InsertChunkRows(b, [Row]) == InsertChunk(b, Row);
  }

  lemma PlanValid()
    ensures Placement.ValidPlacement(2, Elems(["X"]), [FirstRow, SecondRow], map["X" := ["n1", "n2"]])
  {
    var nodes := [FirstRow, SecondRow];
    assert nodes[0].id == "n1" && nodes[1].id == "n2";
    assert Elems(["X"]) == {"X"};
    assert Placement.NodeNamed(nodes, "n1") && Placement.NodeNamed(nodes, "n2");
  }

  lemma CommitValid()
    ensures FileLifecycle.CommitWrites(Prepared(), 2, "S", Holders())
    ensures FileLifecycle.AfterCommit(Prepared(), 2, "S", Holders()) == CommittedDb()
  {
    assert ChunkIds(Prepared(), "F") == {"X"};
    assert FileLifecycle.RowsOf(Holders()) == {Location("X", "n1"), Location("X", "n0")};
  }

  ghost predicate Uploaded(sha: ChunkFile.Sha, data: ChunkFile.Bytes, s: State) {
    && s.db == CommittedDb() && s.clock == 0 && s.clients == map[]
    && s.scanner == Idle && s.disks == Disks(sha, data)
  }

  lemma Upload(sha: ChunkFile.Sha, data: ChunkFile.Bytes) returns (states: seq<State>, steps: seq<Step>)
    requires |data| <= ChunkFile.MAX_SIZE
    ensures states != [] && FairRun(Setting(sha), states, steps, "X", {data}, 0)
    ensures Uploaded(sha, data, Last(states))
  {
    hide FairRun, Disks;
    var c := Setting(sha);
    states, steps := Registered(sha, data);
    NodesListed(TwoNodes());
    PlannedRow();
    PreparedTables();
    PlanValid();
    CommitValid();
    hide Lists, HealthyRows, Placement.ValidPlacement, ChunkPlan.ChunkCount, ChunkPlan.PlanRows,
      FileLifecycle.PrepareRows, FileLifecycle.CommitWrites, FileLifecycle.AfterCommit, TwoNodes, Prepared, Holders, CommittedDb;
    states, steps := Extend(c, states, steps, ByClient(PrepareList(0, "", 1, [FirstRow, SecondRow])), "X", {data});
    states, steps := Extend(c, states, steps, ByClient(PrepareWrite(0, "F", "S", ["X"], map["X" := ["n1", "n2"]])), "X", {data});
    states, steps := Extend(c, states, steps, ByClient(Commit("S", Holders())), "X", {data});
  }

  // ---- The scan ----

  lemma ScanFacts(db: Db)
    requires db == CommittedDb()
    ensures Lists(["X"], CommittedChunks(db)) && Lists(["n1", "n0"], Replicas(db, "X"))
    ensures Lists([FirstRow, SecondRow], HealthyRows(db))
    ensures HealthyIds(db) == {"n1", "n2"}
    ensures Replicas(db, "X") == {"n1", "n0"}
    ensures Find([FirstRow, SecondRow], "n1") == Some(FirstRow)
    ensures Repair.FirstWithout([FirstRow, SecondRow], Elems(["n1", "n0"])) == Some(SecondRow)
  {
    NodesListed(db);
    assert CommittedChunks(db) == {"X"};
    assert Location("X", "n1") in db.locations && Location("X", "n0") in db.locations;
    assert Replicas(db, "X") == {"n1", "n0"};
    assert [FirstRow, SecondRow][1..] == [SecondRow];
    assert Elems(["n1", "n0"]) == {"n1", "n0"};
  }

  /** The steps from `p` on that failed. */
  ghost function Failures(steps: seq<Step>, p: nat): set<nat> {
    set k: nat | p <= k < |steps| && steps[k] == ByScanner(ScanGlitch)
  }

  /** A scan began in step `p` and is still going on; since then the healthy nodes are `healthy` and no copy failed. */
  ghost predicate Underway(states: seq<State>, steps: seq<Step>, p: nat, healthy: set<string>) {
    && |states| == |steps| + 1 && p < |steps|
    && steps[p].ByScanner? && steps[p].scan.ScanList?
    && (forall k :: p < k < |states| ==> states[k].scanner.Scanning?)
    && (forall k :: p <= k < |states| ==>
          HealthyIds(states[k].db) == healthy && states[k].history.failures == states[p].history.failures)
  }

  /** Only the repair goroutine and the storage nodes changed. */
  ghost predicate KeepsRest(s: State, s': State) {
    && s'.db == s.db && s'.clients == s.clients && s'.clock == s.clock
    && s'.history.failures == s.history.failures
  }

  /** The first step of a scan. */
  lemma Begin(c: Config, states: seq<State>, steps: seq<Step>, chunks: seq<string>, payloads: set<ChunkFile.Bytes>)
    returns (states': seq<State>, steps': seq<Step>)
    requires FairRun(c, states, steps, "X", payloads, 0) && states != [] && ScanEnabled(Last(states), ScanList(chunks))
    ensures states' != [] && FairRun(c, states', steps', "X", payloads, 0)
    ensures Underway(states', steps', |steps|, HealthyIds(Last(states).db)) && Failures(steps', |steps|) == {}
    ensures states <= states' && |steps| < |states| && states[|steps|] == Last(states)
    ensures KeepsRest(Last(states), Last(states')) && Last(states').disks == Last(states).disks
    ensures Last(states').scanner == Scanning(chunks, 0, [], Next)
  {
    RunIsLong(c, states, steps, payloads);
    hide FairRun, Lists, HealthyIds;
    states', steps' := Extend(c, states, steps, ByScanner(ScanList(chunks)), "X", payloads);
  }

  lemma RunIsLong(c: Config, states: seq<State>, steps: seq<Step>, payloads: set<ChunkFile.Bytes>)
    requires FairRun(c, states, steps, "X", payloads, 0)
    ensures |states| == |steps| + 1 && IsRunFromInit(c, states, steps)
  {
  }

  /** A step within a scan that touches no table. */
  lemma Scan(c: Config, states: seq<State>, steps: seq<Step>, p: nat, healthy: set<string>, step: ScanStep, next: Scanner,
    payloads: set<ChunkFile.Bytes>)
    returns (states': seq<State>, steps': seq<Step>)
    requires FairRun(c, states, steps, "X", payloads, 0) && states != [] && Underway(states, steps, p, healthy)
    requires ScanEnabled(Last(states), step)
    requires ApplyScan(c, Last(states), step).scanner == next && next.Scanning?
    requires KeepsRest(Last(states), ApplyScan(c, Last(states), step))
    ensures states' != [] && FairRun(c, states', steps', "X", payloads, 0) && Underway(states', steps', p, healthy)
    ensures KeepsRest(Last(states), Last(states')) && Last(states').scanner == next
    ensures Last(states').disks == ApplyScan(c, Last(states), step).disks
    ensures Failures(steps', p) == Failures(steps, p) + if step.ScanGlitch? then {|steps|} else {}
    ensures states <= states'
  {
    hide FairRun, ApplyScan, ScanEnabled, HealthyIds;
    states', steps' := Extend(c, states, steps, ByScanner(step), "X", payloads);
  }

  /** The states of a scan of the uploaded chunk. */
  ghost predicate ScanningX(sha: ChunkFile.Sha, data: ChunkFile.Bytes, s: State, phase: Phase) {
    && s.db == CommittedDb() && s.disks == Disks(sha, data) && s.clients == map[] && s.clock == 0
    && s.scanner == Scanning(["X"], 0, ["n1", "n0"], phase)
  }

  lemma Counted(sha: ChunkFile.Sha, data: ChunkFile.Bytes) returns (states: seq<State>, steps: seq<Step>, p: nat)
    requires |data| <= ChunkFile.MAX_SIZE
    ensures states != [] && FairRun(Setting(sha), states, steps, "X", {data}, 0)
    ensures Underway(states, steps, p, {"n1", "n2"}) && Failures(steps, p) == {}
    ensures p < |states| && states[p].db == CommittedDb()
    ensures ScanningX(sha, data, Last(states), Gathering(0, []))
  {
    hide FairRun, Disks, CommittedDb, Lists, HealthyRows, HealthyIds, CommittedChunks, Replicas, Elems, Underway, Failures;
    var c, q, h := Setting(sha), ["n1", "n0"], {"n1", "n2"};
    ScanFacts(CommittedDb());
    states, steps := Upload(sha, data);
    p := |steps|;
    states, steps := Begin(c, states, steps, ["X"], {data});
    states, steps := Scan(c, states, steps, p, h, ScanLocations(q), Scanning(["X"], 0, q, Counting(0, 0)), {data});
    states, steps := Scan(c, states, steps, p, h, ScanHealth, Scanning(["X"], 0, q, Counting(1, 1)), {data});
    states, steps := Scan(c, states, steps, p, h, ScanHealth, Scanning(["X"], 0, q, Counting(2, 1)), {data});
    states, steps := Scan(c, states, steps, p, h, ScanDecide, Scanning(["X"], 0, q, Gathering(0, [])), {data});
  }

  lemma Gathered(sha: ChunkFile.Sha, data: ChunkFile.Bytes) returns (states: seq<State>, steps: seq<Step>, p: nat)
    requires |data| <= ChunkFile.MAX_SIZE
    ensures states != [] && FairRun(Setting(sha), states, steps, "X", {data}, 0)
    ensures Underway(states, steps, p, {"n1", "n2"}) && Failures(steps, p) == {}
    ensures p < |states| && states[p].db == CommittedDb()
    ensures ScanningX(sha, data, Last(states), Gathering(2, [FirstRow]))
  {
    hide FairRun, Disks, CommittedDb, Lists, HealthyRows, HealthyIds, Replicas, Find, Underway, Failures;
    var c, q, h, nodes := Setting(sha), ["n1", "n0"], {"n1", "n2"}, [FirstRow, SecondRow];
    ScanFacts(CommittedDb());
    states, steps, p := Counted(sha, data);
    states, steps := Scan(c, states, steps, p, h, ScanHealth, Scanning(["X"], 0, q, Looking(0, [])), {data});
    assert [] + [FirstRow] == [FirstRow];
    states, steps := Scan(c, states, steps, p, h, ScanLook(nodes), Scanning(["X"], 0, q, Gathering(1, [FirstRow])), {data});
    states, steps := Scan(c, states, steps, p, h, ScanHealth, Scanning(["X"], 0, q, Gathering(2, [FirstRow])), {data});
  }

  lemma Chosen(sha: ChunkFile.Sha, data: ChunkFile.Bytes) returns (states: seq<State>, steps: seq<Step>, p: nat)
    requires |data| <= ChunkFile.MAX_SIZE
    ensures states != [] && FairRun(Setting(sha), states, steps, "X", {data}, 0)
    ensures Underway(states, steps, p, {"n1", "n2"}) && Failures(steps, p) == {}
    ensures p < |states| && states[p].db == CommittedDb()
    ensures ScanningX(sha, data, Last(states), Fetching(FirstRow, SecondRow))
  {
    hide FairRun, Disks, CommittedDb, Lists, HealthyRows, Repair.FirstWithout, Elems, Underway, Failures;
    var c, q, h := Setting(sha), ["n1", "n0"], {"n1", "n2"};
    ScanFacts(CommittedDb());
    states, steps, p := Gathered(sha, data);
    states, steps := Choose(c, states, steps, p, h, [FirstRow], [FirstRow, SecondRow], {data});
  }

  /** Gathering is over; the first replica becomes the source and n2 the target. */
  lemma Choose(c: Config, states: seq<State>, steps: seq<Step>, p: nat, healthy: set<string>, replicas: seq<NodeRow>,
    nodes: seq<NodeRow>, payloads: set<ChunkFile.Bytes>)
    returns (states': seq<State>, steps': seq<Step>)
    requires FairRun(c, states, steps, "X", payloads, 0) && states != [] && Underway(states, steps, p, healthy)
    requires replicas != [] && replicas[0] == FirstRow && Lists(nodes, HealthyRows(Last(states).db))
    requires Repair.FirstWithout(nodes, Elems(["n1", "n0"])) == Some(SecondRow)
    requires Last(states).scanner == Scanning(["X"], 0, ["n1", "n0"], Gathering(2, replicas))
    ensures states' != [] && FairRun(c, states', steps', "X", payloads, 0) && states <= states'
    ensures Underway(states', steps', p, healthy) && Failures(steps', p) == Failures(steps, p)
    ensures KeepsRest(Last(states), Last(states')) && Last(states').disks == Last(states).disks
    ensures Last(states').scanner == Scanning(["X"], 0, ["n1", "n0"], Fetching(FirstRow, SecondRow))
  {
    hide FairRun, Lists, HealthyRows, Repair.FirstWithout, Elems, Underway, Failures;
    var q := ["n1", "n0"];
    states', steps' := Scan(c, states, steps, p, healthy, ScanDecide, Scanning(["X"], 0, q, Choosing(FirstRow)), payloads);
    states', steps' := Scan(c, states', steps', p, healthy, ScanChoose(nodes), Scanning(["X"], 0, q, Fetching(FirstRow, SecondRow)), payloads);
  }

  ghost function CopiedDisks(sha: ChunkFile.Sha, data: ChunkFile.Bytes): map<string, Disk> {
    Disks(sha, data)["b" := Disk("", map[ChunkFile.Path("", "X") := ChunkFile.Encode(sha, data)])]
  }

  lemma CopyFacts(sha: ChunkFile.Sha, data: ChunkFile.Bytes)
    requires |data| <= ChunkFile.MAX_SIZE
    ensures Disks(sha, data).Keys == {"a", "b"}
    ensures Read(sha, Disks(sha, data)["a"], "X") == Ok(data)
    ensures var put := ChunkFile.PutChunk(sha, "", map[], "X", data);
            put.outcome.Ok? && Disks(sha, data)["b" := Disk("", put.files)] == CopiedDisks(sha, data)
    ensures Disks(sha, data)["b"] == Disk("", map[])
    ensures "a" in CopiedDisks(sha, data) && Read(sha, CopiedDisks(sha, data)["a"], "X") == Ok(data)
  {
    ChunkFile.MaxSizeFits();
    ChunkFile.IntactIffEncoded(sha, ChunkFile.Encode(sha, data), data);
    hide ChunkFile.Encode, ChunkFile.Intact, ChunkFile.Path;
  }

  /** Fetching from n1 and storing at n2. */
  lemma Deliver(sha: ChunkFile.Sha, data: ChunkFile.Bytes, states: seq<State>, steps: seq<Step>, p: nat, healthy: set<string>)
    returns (states': seq<State>, steps': seq<Step>)
    requires |data| <= ChunkFile.MAX_SIZE && states != [] && FairRun(Setting(sha), states, steps, "X", {data}, 0)
    requires Underway(states, steps, p, healthy) && Last(states).disks == Disks(sha, data)
    requires Last(states).scanner == Scanning(["X"], 0, ["n1", "n0"], Fetching(FirstRow, SecondRow))
    ensures states' != [] && FairRun(Setting(sha), states', steps', "X", {data}, 0) && states <= states'
    ensures Underway(states', steps', p, healthy) && Failures(steps', p) == Failures(steps, p)
    ensures KeepsRest(Last(states), Last(states')) && Last(states').disks == CopiedDisks(sha, data)
    ensures Last(states').scanner == Scanning(["X"], 0, ["n1", "n0"], Recording(FirstRow, SecondRow, data))
  {
    var c, q := Setting(sha), ["n1", "n0"];
    CopyFacts(sha, data);
    hide FairRun, Disks, CopiedDisks, Read, ChunkFile.PutChunk, Underway, Failures;
    states', steps' := Scan(c, states, steps, p, healthy, ScanFetch, Scanning(["X"], 0, q, Storing(FirstRow, SecondRow, data)), {data});
    states', steps' := Scan(c, states', steps', p, healthy, ScanStore, Scanning(["X"], 0, q, Recording(FirstRow, SecondRow, data)), {data});
  }

  /** For every hash and payload, a fair run reaches the recording of a new replica of a chunk whose replicas agree. */
  lemma RepairRunExists(sha: ChunkFile.Sha, data: ChunkFile.Bytes)
    returns (c: Config, states: seq<State>, steps: seq<Step>, p: nat)
    requires |data| <= ChunkFile.MAX_SIZE
    ensures c.sha == sha && c.r == 2 && states != [] && FairRun(c, states, steps, "X", {data}, 0)
    ensures CopyingChunk(Last(states).scanner, "X") && Last(states).scanner.phase.Recording?
    ensures Last(states).db == CommittedDb() && Replicas(CommittedDb(), "X") == {"n1", "n0"}
    ensures Agree(c, Last(states), "X", data)
    ensures Underway(states, steps, p, {"n1", "n2"}) && Failures(steps, p) == {}
    ensures p < |states| && states[p].db == CommittedDb()
    ensures Last(states).clients == map[] && Last(states).clock == 0 && c == Setting(sha)
    ensures Last(states).scanner == Scanning(["X"], 0, ["n1", "n0"], Recording(FirstRow, SecondRow, data))
  {
    c := Setting(sha);
    hide FairRun, Disks, CopiedDisks, CommittedDb, Replicas, Read, Underway, Failures, HealthyIds;
    ScanFacts(CommittedDb());
    CopyFacts(sha, data);
    states, steps, p := Chosen(sha, data);
    states, steps := Deliver(sha, data, states, steps, p, {"n1", "n2"});
  }

  lemma RecordFacts()
    ensures InsertLocation(CommittedDb(), Location("X", "n2")) == Ok(RepairedDb())
    ensures Replicas(RepairedDb(), "X") == {"n1", "n0", "n2"} && HealthyIds(RepairedDb()) == HealthyIds(CommittedDb())
  {
    Repair.RowAdded(CommittedDb(), RepairedDb(), "X", "n2");
    ScanFacts(CommittedDb());
  }

  ghost function RepairedDb(): Db {
    CommittedDb().(locations := CommittedDb().locations + {Location("X", "n2")})
  }

  /** The run goes on to the end of a whole scan in which the chunk gained a healthy replica. */
  lemma RepairingScanExists(sha: ChunkFile.Sha, data: ChunkFile.Bytes)
    returns (c: Config, states: seq<State>, steps: seq<Step>, a: nat, b: nat)
    requires |data| <= ChunkFile.MAX_SIZE
    ensures c.sha == sha && WholeScan(c, states, steps, a, b, {"n1", "n2"})
    ensures CommittedAt(states[a], "F") && "X" in ChunkIds(states[a].db, "F")
    ensures Replicas(states[a].db, "X") == {"n1", "n0"} && Replicas(states[b].db, "X") == {"n1", "n0", "n2"}
  {
    c, states, steps, a := RepairRunExists(sha, data);
    assert ChunkIds(CommittedDb(), "F") == {"X"};
    RecordFacts();
    ScanFacts(CommittedDb());
    hide FairRun, CommittedDb, RepairedDb, Replicas, HealthyIds, CommittedChunks, Underway, Failures;
    states, steps := Record(c, states, steps, a, {"n1", "n2"}, RepairedDb(), {data});
    b := |states|;
    states, steps := Finish(c, states, steps, a, {"n1", "n2"}, {data});
  }

  /** Recording the copy, while the same nodes stay healthy. */
  lemma Record(c: Config, states: seq<State>, steps: seq<Step>, p: nat, healthy: set<string>, after: Db, payloads: set<ChunkFile.Bytes>)
    returns (states': seq<State>, steps': seq<Step>)
    requires FairRun(c, states, steps, "X", payloads, 0) && states != [] && Underway(states, steps, p, healthy)
    requires ScanEnabled(Last(states), ScanRecord) && HealthyIds(after) == healthy
    requires var k := Last(states).scanner;
             InsertLocation(Last(states).db, Location(k.chunks[k.index], k.phase.target.id)) == Ok(after)
    ensures states' != [] && FairRun(c, states', steps', "X", payloads, 0) && Underway(states', steps', p, healthy)
    ensures states <= states' && Failures(steps', p) == Failures(steps, p)
    ensures Last(states').db == after && Last(states').scanner == Advance(Last(states).scanner)
  {
    hide FairRun, HealthyIds, InsertLocation;
    states', steps' := Extend(c, states, steps, ByScanner(ScanRecord), "X", payloads);
  }

  lemma Finish(c: Config, states: seq<State>, steps: seq<Step>, p: nat, healthy: set<string>, payloads: set<ChunkFile.Bytes>)
    returns (states': seq<State>, steps': seq<Step>)
    requires FairRun(c, states, steps, "X", payloads, 0) && states != [] && Underway(states, steps, p, healthy)
    requires ScanEnabled(Last(states), ScanEnd) && Failures(steps, p) == {}
    ensures WholeScan(c, states', steps', p, |states|, healthy) && states <= states'
    ensures Last(states').db == Last(states).db && |states'| == |states| + 1
  {
    hide FairRun, HealthyIds;
    states', steps' := Extend(c, states, steps, ByScanner(ScanEnd), "X", payloads);
    RunIsLong(c, states', steps', payloads);
    hide IsRunFromInit;
    assert forall k :: p <= k < |steps| && steps[k] == ByScanner(ScanGlitch) ==> k in Failures(steps, p);
  }
}
