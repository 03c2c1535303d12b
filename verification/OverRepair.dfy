/** Runs in which repair lifts a chunk above the replication factor: one late riser or one failed query is enough. */
module OverRepair {
  import opened Prelude
  import opened Tables
  import opened ControlPlane
  import opened ReplicaAgreement
  import opened RepairExample
  import ChunkFile
  import Repair

  const ThirdRow := NodeRow("n0", Node("a", Healthy, 0))

  /** All three nodes registered. */
  ghost function WithThird(db: Db): Db {
    db.(nodes := db.nodes["n0" := ThirdRow.node])
  }

  ghost predicate Exceeds(r: int, db: Db, x: string) {
    |Replicas(db, x) * HealthyIds(db)| > r
  }

  lemma ThirdFacts()
    ensures "n0" !in CommittedDb().nodes && HealthyIds(CommittedDb()) == {"n1", "n2"}
    ensures HealthyIds(WithThird(CommittedDb())) == {"n1", "n2", "n0"}
    ensures InsertLocation(WithThird(CommittedDb()), Location("X", "n2")) == Ok(WithThird(RepairedDb()))
    ensures HealthyIds(WithThird(RepairedDb())) == {"n1", "n2", "n0"}
    ensures Exceeds(2, WithThird(RepairedDb()), "X")
  {
    RecordFacts();
    ScanFacts(CommittedDb());
    assert Replicas(WithThird(RepairedDb()), "X") == Replicas(RepairedDb(), "X");
    assert {"n1", "n0", "n2"} * {"n1", "n2", "n0"} == {"n1", "n0", "n2"};
    hide Replicas;
  }

  /** A holder that was down when it was asked for becomes healthy before the copy is recorded. Nothing fails, and no
      other node changes. */
  lemma RisingHolderExceeds(sha: ChunkFile.Sha, data: ChunkFile.Bytes)
    returns (c: Config, states: seq<State>, steps: seq<Step>, p: nat, e: nat)
    requires |data| <= ChunkFile.MAX_SIZE
    ensures c.r == 2 && IsRunFromInit(c, states, steps) && p < e < |states| && Failures(steps, p) == {}
    ensures forall k :: p <= k <= e ==> HealthyIds(states[k].db) == {"n1", "n2"}
    ensures states[e].scanner.Scanning? && states[e].scanner.phase.Recording?
    ensures HealthyIds(Last(states).db) == {"n1", "n2", "n0"} && Exceeds(c.r, Last(states).db, "X")
  {
    hide FairRun, Underway, Failures, CommittedDb, RepairedDb, WithThird, HealthyIds, Exceeds, InsertLocation, Replicas, Agree;
    ThirdFacts();
    c, states, steps, p := RepairRunExists(sha, data);
    ghost var before, done := states, steps;
    e := |states| - 1;
    BeforeRise(states, steps, p);
    states, steps := Register(c, states, steps, "n0", {data});
    NamesThird(Last(before).db, Last(states).db, c);
    states, steps := RecordLate(c, states, steps, WithThird(RepairedDb()), {data});
    RunIsLong(c, states, steps, {data});
    NoNewFailures(done, steps, p);
  }

  lemma RecordLate(c: Config, states: seq<State>, steps: seq<Step>, after: Db, payloads: set<ChunkFile.Bytes>)
    returns (states': seq<State>, steps': seq<Step>)
    requires FairRun(c, states, steps, "X", payloads, 0) && states != [] && ScanEnabled(Last(states), ScanRecord)
    requires var k := Last(states).scanner;
             InsertLocation(Last(states).db, Location(k.chunks[k.index], k.phase.target.id)) == Ok(after)
    ensures states' != [] && FairRun(c, states', steps', "X", payloads, 0) && Last(states').db == after
    ensures states <= states' && steps' == steps + [ByScanner(ScanRecord)]
  {
    hide FairRun, InsertLocation;
    states', steps' := Extend(c, states, steps, ByScanner(ScanRecord), "X", payloads);
  }

  lemma NamesThird(db: Db, db': Db, c: Config)
    requires c.home("n0") == "a" && db' == db.(nodes := db.nodes["n0" := Node(c.home("n0"), Healthy, 0)])
    ensures db' == WithThird(db)
  {
  }

  lemma BeforeRise(states: seq<State>, steps: seq<Step>, p: nat)
    requires Underway(states, steps, p, {"n1", "n2"})
    ensures p < |states| - 1 && |states| == |steps| + 1
    ensures forall k :: p <= k < |states| ==> HealthyIds(states[k].db) == {"n1", "n2"}
  {
    hide HealthyIds;
  }

  lemma NoNewFailures(done: seq<Step>, steps: seq<Step>, p: nat)
    requires done <= steps && forall k :: |done| <= k < |steps| ==> steps[k] != ByScanner(ScanGlitch)
    ensures Failures(steps, p) == Failures(done, p)
  {
  }

  // ---- One failed query ----

  lemma ThreeListed()
    ensures Lists([FirstRow, SecondRow, ThirdRow], HealthyRows(WithThird(CommittedDb())))
    ensures Lists(["X"], CommittedChunks(WithThird(CommittedDb())))
    ensures Lists(["n1", "n0"], Replicas(WithThird(CommittedDb()), "X"))
    ensures Find([FirstRow, SecondRow, ThirdRow], "n1") == Some(FirstRow)
    ensures Find([FirstRow, SecondRow, ThirdRow], "n0") == Some(ThirdRow)
    ensures Repair.FirstWithout([FirstRow, SecondRow, ThirdRow], Elems(["n1", "n0"])) == Some(SecondRow)
  {
    var db, nodes := WithThird(CommittedDb()), [FirstRow, SecondRow, ThirdRow];
    ScanFacts(CommittedDb());
    assert FirstRow == NodeRow("n1", db.nodes["n1"]) && SecondRow == NodeRow("n2", db.nodes["n2"])
           && ThirdRow == NodeRow("n0", db.nodes["n0"]);
    assert HealthyRows(db) == {FirstRow, SecondRow, ThirdRow};
    assert nodes[1..] == [SecondRow, ThirdRow] && nodes[1..][1..] == [ThirdRow];
    assert Find(nodes[1..][1..], "n0") == Some(ThirdRow);
    assert Elems(["n1", "n0"]) == {"n1", "n0"};
    assert CommittedChunks(db) == CommittedChunks(CommittedDb());
    assert Replicas(db, "X") == Replicas(CommittedDb(), "X");
  }

  ghost predicate Copying3(sha: ChunkFile.Sha, data: ChunkFile.Bytes, s: State, phase: Phase) {
    && s.db == WithThird(CommittedDb()) && s.disks == Disks(sha, data) && s.clients == map[] && s.clock == 0
    && s.scanner == Scanning(["X"], 0, ["n1", "n0"], phase)
  }

  /** All three nodes are healthy, and a scan has read the locations. */
  lemma Located(sha: ChunkFile.Sha, data: ChunkFile.Bytes)
    returns (states: seq<State>, steps: seq<Step>, p: nat)
    requires |data| <= ChunkFile.MAX_SIZE
    ensures states != [] && FairRun(Setting(sha), states, steps, "X", {data}, 0)
    ensures Underway(states, steps, p, {"n1", "n2", "n0"}) && Failures(steps, p) == {}
    ensures Copying3(sha, data, Last(states), Counting(0, 0))
  {
    var c, q, h := Setting(sha), ["n1", "n0"], {"n1", "n2", "n0"};
    ThirdFacts();
    ThreeListed();
    hide FairRun, Disks, CommittedDb, Lists, HealthyIds, CommittedChunks, Replicas, Underway, Failures, WithThird;
    states, steps := Upload(sha, data);
    ghost var before := states;
    states, steps := Register(c, states, steps, "n0", {data});
    NamesThird(Last(before).db, Last(states).db, c);
    p := |steps|;
    states, steps := Begin(c, states, steps, ["X"], {data});
    states, steps := Scan(c, states, steps, p, h, ScanLocations(q), Scanning(["X"], 0, q, Counting(0, 0)), {data});
  }

  /** The query for n0 fails. */
  lemma Miscounted(sha: ChunkFile.Sha, data: ChunkFile.Bytes)
    returns (states: seq<State>, steps: seq<Step>, p: nat, g: nat)
    requires |data| <= ChunkFile.MAX_SIZE
    ensures states != [] && FairRun(Setting(sha), states, steps, "X", {data}, 0)
    ensures Underway(states, steps, p, {"n1", "n2", "n0"}) && Failures(steps, p) == {g}
    ensures Copying3(sha, data, Last(states), Gathering(0, []))
  {
    var c, q, h := Setting(sha), ["n1", "n0"], {"n1", "n2", "n0"};
    ThirdFacts();
    hide FairRun, Disks, CommittedDb, HealthyIds, Underway, Failures, WithThird;
    states, steps, p := Located(sha, data);
    states, steps := Scan(c, states, steps, p, h, ScanHealth, Scanning(["X"], 0, q, Counting(1, 1)), {data});
    g := |steps|;
    states, steps := Scan(c, states, steps, p, h, ScanGlitch, Scanning(["X"], 0, q, Counting(2, 1)), {data});
    states, steps := Scan(c, states, steps, p, h, ScanDecide, Scanning(["X"], 0, q, Gathering(0, [])), {data});
  }

  lemma FirstGathered(sha: ChunkFile.Sha, data: ChunkFile.Bytes)
    returns (states: seq<State>, steps: seq<Step>, p: nat, g: nat)
    requires |data| <= ChunkFile.MAX_SIZE
    ensures states != [] && FairRun(Setting(sha), states, steps, "X", {data}, 0)
    ensures Underway(states, steps, p, {"n1", "n2", "n0"}) && Failures(steps, p) == {g}
    ensures Copying3(sha, data, Last(states), Gathering(1, [FirstRow]))
  {
    var c, q, h, nodes := Setting(sha), ["n1", "n0"], {"n1", "n2", "n0"}, [FirstRow, SecondRow, ThirdRow];
    ThirdFacts();
    ThreeListed();
    hide FairRun, Disks, CommittedDb, Lists, HealthyRows, HealthyIds, Find, Underway, Failures, WithThird;
    states, steps, p, g := Miscounted(sha, data);
    states, steps := Scan(c, states, steps, p, h, ScanHealth, Scanning(["X"], 0, q, Looking(0, [])), {data});
    assert [] + [FirstRow] == [FirstRow];
    states, steps := Scan(c, states, steps, p, h, ScanLook(nodes), Scanning(["X"], 0, q, Gathering(1, [FirstRow])), {data});
  }

  lemma BothGathered(sha: ChunkFile.Sha, data: ChunkFile.Bytes)
    returns (states: seq<State>, steps: seq<Step>, p: nat, g: nat)
    requires |data| <= ChunkFile.MAX_SIZE
    ensures states != [] && FairRun(Setting(sha), states, steps, "X", {data}, 0)
    ensures Underway(states, steps, p, {"n1", "n2", "n0"}) && Failures(steps, p) == {g}
    ensures Copying3(sha, data, Last(states), Gathering(2, [FirstRow, ThirdRow]))
  {
    var c, q, h, nodes := Setting(sha), ["n1", "n0"], {"n1", "n2", "n0"}, [FirstRow, SecondRow, ThirdRow];
    ThirdFacts();
    ThreeListed();
    hide FairRun, Disks, CommittedDb, Lists, HealthyRows, HealthyIds, Find, Underway, Failures, WithThird;
    states, steps, p, g := FirstGathered(sha, data);
    states, steps := Scan(c, states, steps, p, h, ScanHealth, Scanning(["X"], 0, q, Looking(1, [FirstRow])), {data});
    assert [FirstRow] + [ThirdRow] == [FirstRow, ThirdRow];
    states, steps := Scan(c, states, steps, p, h, ScanLook(nodes), Scanning(["X"], 0, q, Gathering(2, [FirstRow, ThirdRow])), {data});
  }

  lemma ChosenAnyway(sha: ChunkFile.Sha, data: ChunkFile.Bytes)
    returns (states: seq<State>, steps: seq<Step>, p: nat, g: nat)
    requires |data| <= ChunkFile.MAX_SIZE
    ensures states != [] && FairRun(Setting(sha), states, steps, "X", {data}, 0)
    ensures Underway(states, steps, p, {"n1", "n2", "n0"}) && Failures(steps, p) == {g}
    ensures Copying3(sha, data, Last(states), Fetching(FirstRow, SecondRow))
  {
    ThreeListed();
    hide FairRun, Disks, CommittedDb, Lists, HealthyRows, Repair.FirstWithout, Elems, Underway, Failures, WithThird;
    states, steps, p, g := BothGathered(sha, data);
    states, steps := Choose(Setting(sha), states, steps, p, {"n1", "n2", "n0"}, [FirstRow, ThirdRow],
      [FirstRow, SecondRow, ThirdRow], {data});
  }

  /** During the whole scan the same three nodes are healthy and nothing fails but one health query. */
  lemma FailedQueryExceeds(sha: ChunkFile.Sha, data: ChunkFile.Bytes)
    returns (c: Config, states: seq<State>, steps: seq<Step>, p: nat, g: nat)
    requires |data| <= ChunkFile.MAX_SIZE
    ensures c.r == 2 && states != [] && IsRunFromInit(c, states, steps)
    ensures Underway(states, steps, p, {"n1", "n2", "n0"}) && Failures(steps, p) == {g}
    ensures Exceeds(c.r, Last(states).db, "X")
  {
    hide FairRun, Disks, CommittedDb, RepairedDb, WithThird, Replicas, Underway, Failures, HealthyIds, Exceeds, InsertLocation;
    c := Setting(sha);
    ThirdFacts();
    states, steps, p, g := Delivered(sha, data);
    states, steps := Record(c, states, steps, p, {"n1", "n2", "n0"}, WithThird(RepairedDb()), {data});
    RunIsLong(c, states, steps, {data});
  }

  lemma Delivered(sha: ChunkFile.Sha, data: ChunkFile.Bytes)
    returns (states: seq<State>, steps: seq<Step>, p: nat, g: nat)
    requires |data| <= ChunkFile.MAX_SIZE
    ensures states != [] && FairRun(Setting(sha), states, steps, "X", {data}, 0)
    ensures Underway(states, steps, p, {"n1", "n2", "n0"}) && Failures(steps, p) == {g}
    ensures Last(states).db == WithThird(CommittedDb())
    ensures Last(states).scanner == Scanning(["X"], 0, ["n1", "n0"], Recording(FirstRow, SecondRow, data))
  {
    hide FairRun, Disks, CommittedDb, WithThird, Underway, Failures;
    states, steps, p, g := ChosenAnyway(sha, data);
    states, steps := Deliver(sha, data, states, steps, p, {"n1", "n2", "n0"});
  }
}
