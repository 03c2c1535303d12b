/** Repair scans inside the state machine: what a scan achieves while clients, heartbeats and the monitor interleave. */
module InterleavedScan {
  import opened Prelude
  import opened Tables
  import opened ControlPlane
  import opened ControlPlaneSafety
  import opened ControlPlaneTheorems
  import opened ReplicaRows
  import opened Repair
  import ChunkFile
  import CopyChunk
  import Registry

  // ---- How far a scan is ----

  /** The chunks before `index` have been dealt with, the others are as they were. */
  ghost predicate Progress(r: int, healthy: set<string>, start: Db, now: Db, chunks: seq<string>, index: nat) {
    && (forall i :: 0 <= i < |chunks| && i < index ==>
          ScannedChunk(r, healthy, Replicas(start, chunks[i]), Replicas(now, chunks[i])))
    && (forall i :: index <= i < |chunks| ==> Replicas(now, chunks[i]) == Replicas(start, chunks[i]))
  }

  /** What repair knows of the current chunk, whose holders are `k.locations`. */
  ghost predicate PhaseRight(r: int, healthy: set<string>, k: Scanner)
    requires k.Scanning?
  {
    var holders := Elems(k.locations);
    match k.phase
    case Next => true
    case Counting(n, h) => n <= |k.locations| && h == |Elems(k.locations[..n]) * healthy|
    case Gathering(n, q) =>
      n <= |k.locations| && |holders * healthy| < r && (q == [] <==> Elems(k.locations[..n]) * healthy == {})
    case Looking(n, _) => n < |k.locations| && |holders * healthy| < r && k.locations[n] in healthy
    case Choosing(_) => |holders * healthy| < r && holders * healthy != {}
    case Fetching(_, t) => |holders * healthy| < r && holders * healthy != {} && t.id in healthy - holders
    case Storing(_, t, _) => |holders * healthy| < r && holders * healthy != {} && t.id in healthy - holders
    case Recording(_, t, _) => |holders * healthy| < r && holders * healthy != {} && t.id in healthy - holders
  }

  /** The state during a scan of `chunks` that began on the tables `start`. */
  ghost predicate Midway(c: Config, healthy: set<string>, start: Db, chunks: seq<string>, s: State) {
    && s.scanner.Scanning? && s.scanner.chunks == chunks
    && PhaseRight(c.r, healthy, s.scanner)
    && Progress(c.r, healthy, start, s.db, chunks, s.scanner.index)
  }

  /** The locations read for the current chunk are its rows, each once. */
  ghost predicate HoldersCurrent(db: Db, k: Scanner) {
    k.Scanning? && k.index < |k.chunks| && NoDup(k.locations) && Elems(k.locations) == Replicas(db, k.chunks[k.index])
  }

  lemma SoundHolders(c: Config, s: State)
    requires Sound(c, s) && AtChunk(s.scanner) && !s.scanner.phase.Next?
    ensures HoldersCurrent(s.db, s.scanner)
  {
    hide DataSound, ClientsSound, Conserved;
  }

  lemma Advanced(r: int, healthy: set<string>, start: Db, db: Db, k: Scanner)
    requires HoldersCurrent(db, k) && Progress(r, healthy, start, db, k.chunks, k.index)
    requires |Elems(k.locations) * healthy| >= r || Elems(k.locations) * healthy == {} || healthy - Elems(k.locations) == {}
    ensures Progress(r, healthy, start, db, k.chunks, k.index + 1)
  {
    hide Replicas;
  }

  // ---- Steps of the repair goroutine ----

  lemma HealthStep(c: Config, healthy: set<string>, start: Db, chunks: seq<string>, s: State)
    requires Midway(c, healthy, start, chunks, s) && ScanEnabled(s, ScanHealth)
    requires HealthyIds(s.db) == healthy && "" !in healthy && NoDup(s.scanner.locations)
    ensures Midway(c, healthy, start, chunks, ApplyHealth(s))
  {
    hide Progress, HealthyIds, Elems;
    var k := s.scanner;
    var n := k.phase.next;
    assert Elems(k.locations[..n + 1]) == Elems(k.locations[..n]) + {k.locations[n]} by {
      PrefixElems(k.locations, n);
    }
    CountOneMore(k.locations, n, healthy);
    assert k.locations[n] !in healthy ==>
      Elems(k.locations[..n + 1]) * healthy == Elems(k.locations[..n]) * healthy;
  }

  lemma PrefixElems(q: seq<string>, n: nat)
    requires n < |q|
    ensures Elems(q[..n + 1]) == Elems(q[..n]) + {q[n]}
  {
  }

  lemma {:induction false} FindComplete(nodes: seq<NodeRow>, id: string, i: nat)
    requires i < |nodes| && nodes[i].id == id
    ensures Find(nodes, id).Some?
  {
    if nodes[0].id != id {
      FindComplete(nodes[1..], id, i - 1);
    }
  }

  lemma LookStep(c: Config, healthy: set<string>, start: Db, chunks: seq<string>, s: State, nodes: seq<NodeRow>)
    requires Midway(c, healthy, start, chunks, s) && ScanEnabled(s, ScanLook(nodes)) && HealthyIds(s.db) == healthy
    ensures Midway(c, healthy, start, chunks, ApplyScan(c, s, ScanLook(nodes)))
  {
    var k := s.scanner;
    var n := k.phase.next;
    Registry.HealthyNamed(s.db, nodes, k.locations[n]);
    var i :| 0 <= i < |nodes| && nodes[i].id == k.locations[n];
    FindComplete(nodes, k.locations[n], i);
    PrefixElems(k.locations, n);
    hide Progress, HealthyIds, Elems, Find, HealthyRows, Lists;
    assert k.locations[n] in Elems(k.locations[..n + 1]) * healthy;
  }

  lemma WholePrefix(q: seq<string>, healthy: set<string>)
    ensures q[..|q|] == q && Elems(q[..0]) * healthy == {}
  {
  }

  /** Counting or gathering is over, and the chunk needs nothing or cannot be helped. */
  lemma GiveUpStep(c: Config, healthy: set<string>, start: Db, chunks: seq<string>, s: State)
    requires Midway(c, healthy, start, chunks, s) && HoldersCurrent(s.db, s.scanner)
    requires |Elems(s.scanner.locations) * healthy| >= c.r || Elems(s.scanner.locations) * healthy == {}
             || healthy - Elems(s.scanner.locations) == {}
    ensures Midway(c, healthy, start, chunks, s.(scanner := Advance(s.scanner)))
  {
    hide Elems, HoldersCurrent, Progress;
    Advanced(c.r, healthy, start, s.db, s.scanner);
  }

  lemma CountedStep(c: Config, healthy: set<string>, start: Db, chunks: seq<string>, s: State)
    requires Midway(c, healthy, start, chunks, s) && ScanEnabled(s, ScanDecide) && HoldersCurrent(s.db, s.scanner)
    requires s.scanner.phase.Counting?
    ensures Midway(c, healthy, start, chunks, ApplyDecide(c, s))
  {
    hide Progress, Elems, HoldersCurrent;
    WholePrefix(s.scanner.locations, healthy);
    if s.scanner.phase.healthy >= c.r {
      GiveUpStep(c, healthy, start, chunks, s);
    }
  }

  lemma GatheredStep(c: Config, healthy: set<string>, start: Db, chunks: seq<string>, s: State)
    requires Midway(c, healthy, start, chunks, s) && ScanEnabled(s, ScanDecide) && HoldersCurrent(s.db, s.scanner)
    requires s.scanner.phase.Gathering?
    ensures Midway(c, healthy, start, chunks, ApplyDecide(c, s))
  {
    hide Progress, Elems, HoldersCurrent;
    WholePrefix(s.scanner.locations, healthy);
    if s.scanner.phase.replicas == [] {
      GiveUpStep(c, healthy, start, chunks, s);
    }
  }

  lemma ChooseStep(c: Config, healthy: set<string>, start: Db, chunks: seq<string>, s: State, nodes: seq<NodeRow>)
    requires Midway(c, healthy, start, chunks, s) && ScanEnabled(s, ScanChoose(nodes)) && HoldersCurrent(s.db, s.scanner)
    requires HealthyIds(s.db) == healthy
    ensures Midway(c, healthy, start, chunks, ApplyScan(c, s, ScanChoose(nodes)))
  {
    hide Progress, Elems, HealthyIds, HealthyRows, Lists, FirstWithout, HoldersCurrent;
    var k := s.scanner;
    TargetChosen(s.db, nodes, Elems(k.locations));
    if healthy - Elems(k.locations) == {} {
      GiveUpStep(c, healthy, start, chunks, s);
    }
  }

  lemma TargetChosen(db: Db, nodes: seq<NodeRow>, holders: set<string>)
    requires Lists(nodes, HealthyRows(db))
    ensures match FirstWithout(nodes, holders)
            case None => HealthyIds(db) - holders == {}
            case Some(t) => t.id in HealthyIds(db) - holders
  {
    FirstWithoutFound(nodes, holders);
    TargetExists(db, nodes, holders);
    hide HealthyIds, HealthyRows, Lists, FirstWithout;
  }

  /** A copy on its way changes no row. */
  lemma CarryStep(c: Config, healthy: set<string>, start: Db, chunks: seq<string>, s: State, step: ScanStep)
    requires Midway(c, healthy, start, chunks, s) && ScanEnabled(s, step) && (step.ScanFetch? || step.ScanStore?)
    requires ApplyTransfer(c, s, step).history.failures == s.history.failures
    ensures Midway(c, healthy, start, chunks, ApplyTransfer(c, s, step))
  {
    hide Progress, Elems, CopyChunk.Read, ChunkFile.PutChunk;
  }

  lemma RecordedProgress(r: int, healthy: set<string>, start: Db, db: Db, db': Db, k: Scanner, t: string)
    requires HoldersCurrent(db, k) && NoDup(k.chunks) && Progress(r, healthy, start, db, k.chunks, k.index)
    requires |Elems(k.locations) * healthy| < r && Elems(k.locations) * healthy != {} && t in healthy - Elems(k.locations)
    requires Replicas(db', k.chunks[k.index]) == Replicas(db, k.chunks[k.index]) + {t}
    requires forall x :: x != k.chunks[k.index] ==> Replicas(db', x) == Replicas(db, x)
    ensures Progress(r, healthy, start, db', k.chunks, k.index + 1)
  {
    hide Replicas, Elems;
    var x := k.chunks[k.index];
    assert ScannedChunk(r, healthy, Replicas(start, x), Replicas(db', x));
    hide ScannedChunk;
    assert forall i :: 0 <= i < |k.chunks| && i != k.index ==> k.chunks[i] != x;
  }

  lemma RecordStep(c: Config, healthy: set<string>, start: Db, chunks: seq<string>, s: State)
    requires Midway(c, healthy, start, chunks, s) && ScanEnabled(s, ScanRecord) && HoldersCurrent(s.db, s.scanner)
    requires ApplyTransfer(c, s, ScanRecord).history.failures == s.history.failures && NoDup(chunks)
    ensures Midway(c, healthy, start, chunks, ApplyTransfer(c, s, ScanRecord))
  {
    hide Replicas, Elems, Progress, HoldersCurrent, NoDup;
    var k, s' := s.scanner, ApplyTransfer(c, s, ScanRecord);
    var x, t := chunks[k.index], k.phase.target.id;
    RowAdded(s.db, s'.db, x, t);
    RecordedProgress(c.r, healthy, start, s.db, s'.db, k, t);
  }

  /** Every step of the goroutine between listing the chunks and the end of the scan. */
  lemma ScanStepMidway(c: Config, healthy: set<string>, start: Db, chunks: seq<string>, s: State, step: ScanStep)
    requires Sound(c, s) && Midway(c, healthy, start, chunks, s) && NoDup(chunks) && HealthyIds(s.db) == healthy
    requires ScanEnabled(s, step) && !step.ScanList? && !step.ScanEnd? && !step.ScanGlitch?
    requires ApplyScan(c, s, step).history.failures == s.history.failures
    ensures Midway(c, healthy, start, chunks, ApplyScan(c, s, step))
  {
    NoEmptyName(c, s);
    if AtChunk(s.scanner) && !s.scanner.phase.Next? {
      SoundHolders(c, s);
    }
    hide Sound, Midway, Progress, PhaseRight, Replicas, HealthyIds, HealthyRows, Lists, NoDup, Elems, FirstWithout, Find;
    if step.ScanLocations? {
      LocationsStep(c, healthy, start, chunks, s, step.locations);
    } else if step.ScanHealth? {
      HealthStep(c, healthy, start, chunks, s);
    } else if step.ScanLook? {
      LookStep(c, healthy, start, chunks, s, step.nodes);
    } else if step.ScanDecide? {
      if s.scanner.phase.Counting? {
        CountedStep(c, healthy, start, chunks, s);
      } else {
        GatheredStep(c, healthy, start, chunks, s);
      }
    } else if step.ScanChoose? {
      ChooseStep(c, healthy, start, chunks, s, step.nodes);
    } else if step.ScanRecord? {
      RecordStep(c, healthy, start, chunks, s);
    } else {
      CarryStep(c, healthy, start, chunks, s, step);
    }
  }

  lemma NoEmptyName(c: Config, s: State)
    requires Sound(c, s)
    ensures "" !in HealthyIds(s.db)
  {
    hide Shape, Lifecycle, Rows, Plans, ClientsSound, ScannerSound, Conserved;
  }

  lemma LocationsStep(c: Config, healthy: set<string>, start: Db, chunks: seq<string>, s: State, q: seq<string>)
    requires Midway(c, healthy, start, chunks, s) && ScanEnabled(s, ScanLocations(q))
    ensures Midway(c, healthy, start, chunks, ApplyScan(c, s, ScanLocations(q)))
  {
    hide Progress, Lists, Replicas;
    assert Elems(q[..0]) * healthy == {};
  }

  // ---- A whole scan in a run ----

  /** One scan, from listing the committed chunks in step `a` to its end in state `b`. Meanwhile the same nodes are
      healthy, no statement or copy of the scan fails, and anything else may happen. */
  ghost predicate WholeScan(c: Config, states: seq<State>, steps: seq<Step>, a: nat, b: nat, healthy: set<string>) {
    && IsRunFromInit(c, states, steps) && a < b < |states|
    && steps[a].ByScanner? && steps[a].scan.ScanList?
    && states[b].scanner.Idle? && steps[b - 1] != Restart
    && (forall k :: a < k < b ==> states[k].scanner.Scanning? && steps[k] != ByScanner(ScanGlitch))
    && (forall k :: a <= k <= b ==>
          && HealthyIds(states[k].db) == healthy
          && states[k].history.failures == states[a].history.failures)
  }

  lemma ScanParts(c: Config, states: seq<State>, steps: seq<Step>, a: nat, b: nat, healthy: set<string>, k: nat)
    requires WholeScan(c, states, steps, a, b, healthy) && a <= k < b
    ensures |states| == |steps| + 1 && IsRunFromInit(c, states, steps)
    ensures Enabled(c, states[k], steps[k]) && states[k + 1] == Apply(c, states[k], steps[k])
    ensures HealthyIds(states[k].db) == healthy && states[k + 1].history.failures == states[k].history.failures
    ensures a < k ==> states[k].scanner.Scanning? && steps[k] != ByScanner(ScanGlitch)
    ensures k == a ==> steps[k].ByScanner? && steps[k].scan.ScanList?
    ensures states[k + 1].scanner.Scanning? <==> k + 1 < b
    ensures k + 1 == b ==> steps[k] != Restart
  {
    hide Enabled, Apply, HealthyIds;
  }

  lemma ScanOrder(c: Config, states: seq<State>, steps: seq<Step>, a: nat, b: nat, healthy: set<string>)
    requires WholeScan(c, states, steps, a, b, healthy)
    ensures a < b < |states|
  {
  }

  /** Chunks of committed files, as listed. */
  ghost predicate Listed(s: State, chunks: seq<string>) {
    forall i :: 0 <= i < |chunks| ==> EverCommittedChunk(s, chunks[i])
  }

  lemma ListBegins(c: Config, healthy: set<string>, s: State, chunks: seq<string>)
    requires Sound(c, s) && ScanEnabled(s, ScanList(chunks))
    ensures Listed(s, chunks) && NoDup(chunks) && Elems(chunks) == CommittedChunks(s.db)
    ensures Midway(c, healthy, s.db, chunks, ApplyScan(c, s, ScanList(chunks)))
    ensures Listed(ApplyScan(c, s, ScanList(chunks)), chunks)
  {
    hide Shape, Rows, Plans, ClientsSound, ScannerSound, Conserved, Replicas;
    forall i | 0 <= i < |chunks| ensures EverCommittedChunk(s, chunks[i]) {
      assert chunks[i] in Elems(chunks);
    }
  }

  lemma ListedStays(s: State, s': State, chunks: seq<string>)
    requires Listed(s, chunks) && OnlyGrows(s, s')
    ensures Listed(s', chunks)
  {
    hide EverCommittedChunk, OnlyGrows;
    forall i | 0 <= i < |chunks| ensures EverCommittedChunk(s', chunks[i]) {
      StaysCommitted(s, s', chunks[i]);
    }
  }

  /** Steps of everybody else. */
  lemma OtherStepMidway(c: Config, healthy: set<string>, start: Db, chunks: seq<string>, s: State, step: Step)
    requires Sound(c, s) && Midway(c, healthy, start, chunks, s) && Listed(s, chunks)
    requires Enabled(c, s, step) && !step.ByScanner? && !step.Restart?
    ensures Midway(c, healthy, start, chunks, Apply(c, s, step))
  {
    var s' := Apply(c, s, step);
    hide Sound, Enabled, Apply, PhaseRight, Replicas, EverCommittedChunk;
    forall i | 0 <= i < |chunks| ensures Replicas(s'.db, chunks[i]) == Replicas(s.db, chunks[i]) {
      OthersKeepRows(c, s, step, chunks[i]);
    }
    SameScanner(c, s, step);
    hide ScannedChunk;
  }

  /** Repair never touches a client's request. */
  lemma ScanKeepsClients(c: Config, s: State, step: ScanStep)
    requires ScanEnabled(s, step)
    ensures ApplyScan(c, s, step).clients == s.clients
  {
    hide CopyChunk.Read, ChunkFile.PutChunk, InsertLocation, Lists, FirstWithout, Find, Elems, HealthyIds;
  }

  lemma SameScanner(c: Config, s: State, step: Step)
    requires Enabled(c, s, step) && !step.ByScanner? && !step.Restart?
    ensures Apply(c, s, step).scanner == s.scanner
  {
    hide ClientEnabled, ApplyClient, Registry.Verdict, Lists, NodeRows;
    if step.ByClient? {
      ClientKeepsDisks(c, s, step.client);
    }
  }

  lemma MidwayNext(c: Config, healthy: set<string>, start: Db, chunks: seq<string>, s: State, step: Step)
    requires Sound(c, s) && Midway(c, healthy, start, chunks, s) && Listed(s, chunks) && NoDup(chunks)
    requires HealthyIds(s.db) == healthy && Enabled(c, s, step) && step != ByScanner(ScanGlitch)
    requires Apply(c, s, step).history.failures == s.history.failures && Apply(c, s, step).scanner.Scanning?
    ensures Midway(c, healthy, start, chunks, Apply(c, s, step))
  {
    if step.ByScanner? {
      hide Sound, Listed, HealthyIds, Progress, PhaseRight, ApplyTransfer, ApplyHealth, ApplyDecide, ApplyGlitch, Lists;
      assert !step.scan.ScanList? && !step.scan.ScanEnd?;
      hide ApplyScan, ScanEnabled;
      ScanStepMidway(c, healthy, start, chunks, s, step.scan);
    } else {
      assert !step.Restart?;
      hide Enabled, Apply, Sound, Midway;
      OtherStepMidway(c, healthy, start, chunks, s, step);
    }
  }

  lemma ListStarts(c: Config, healthy: set<string>, s: State, step: Step)
    requires Sound(c, s) && Enabled(c, s, step) && step.ByScanner? && step.scan.ScanList?
    ensures Elems(step.scan.chunks) == CommittedChunks(s.db) && NoDup(step.scan.chunks)
    ensures Apply(c, s, step).scanner.Scanning? && Listed(Apply(c, s, step), step.scan.chunks)
    ensures Midway(c, healthy, s.db, step.scan.chunks, Apply(c, s, step))
  {
    hide Sound, Lists, Midway, Listed, CommittedChunks, NoDup, Elems;
    ListBegins(c, healthy, s, step.scan.chunks);
  }

  lemma {:induction false} MidwayInRun(c: Config, states: seq<State>, steps: seq<Step>, a: nat, b: nat, healthy: set<string>, k: nat)
    requires WholeScan(c, states, steps, a, b, healthy) && a < k < b
    ensures a < |steps| && steps[a].ByScanner? && steps[a].scan.ScanList?
    ensures Elems(steps[a].scan.chunks) == CommittedChunks(states[a].db) && NoDup(steps[a].scan.chunks)
    ensures Listed(states[k], steps[a].scan.chunks)
    ensures Midway(c, healthy, states[a].db, steps[a].scan.chunks, states[k])
    decreases k
  {
    hide WholeScan, IsRunFromInit, Enabled, Apply, Sound, Midway, Listed, HealthyIds, NoDup, Elems, CommittedChunks, OnlyGrows;
    ScanOrder(c, states, steps, a, b, healthy);
    ScanParts(c, states, steps, a, b, healthy, a);
    ScanParts(c, states, steps, a, b, healthy, k - 1);
    Safety(c, states, steps, k - 1);
    var chunks := steps[a].scan.chunks;
    if k == a + 1 {
      ListStarts(c, healthy, states[a], steps[a]);
    } else {
      MidwayInRun(c, states, steps, a, b, healthy, k - 1);
      Grows(c, states[k - 1], steps[k - 1]);
      ListedStays(states[k - 1], states[k], chunks);
      MidwayNext(c, healthy, states[a].db, chunks, states[k - 1], steps[k - 1]);
    }
  }

  lemma ScanEnds(c: Config, s: State, step: Step)
    requires Enabled(c, s, step) && s.scanner.Scanning? && Apply(c, s, step).scanner.Idle? && !step.Restart?
    ensures s.scanner.index >= |s.scanner.chunks| && Apply(c, s, step).db == s.db
  {
    if step.ByScanner? {
      hide CopyChunk.Read, Lists, FirstWithout, Find, InsertLocation, ChunkFile.PutChunk;
    } else {
      SameScanner(c, s, step);
      hide Enabled, Apply;
    }
  }

  ghost predicate CommittedAt(s: State, f: string) {
    f in s.db.files && s.db.files[f].status == Committed
  }

  /** A scan interleaved with everything else does to each chunk committed at its start what a scan run alone does:
      one more healthy replica if there are too few, some, and a healthy node without one; and no change otherwise. */
  lemma InterleavedScanExact(c: Config, states: seq<State>, steps: seq<Step>, a: nat, b: nat, healthy: set<string>, f: string, x: string)
    requires a < b < |states| && CommittedAt(states[a], f) && x in ChunkIds(states[a].db, f)
    requires WholeScan(c, states, steps, a, b, healthy)
    ensures ScannedChunk(c.r, healthy, Replicas(states[a].db, x), Replicas(states[b].db, x))
  {
    hide WholeScan, HealthyIds, ScannedChunk, Replicas, CommittedChunks;
    ScanLists(states[a].db, f, x);
    ListedChunkScanned(c, states, steps, a, b, healthy, x);
  }

  lemma ListedChunkScanned(c: Config, states: seq<State>, steps: seq<Step>, a: nat, b: nat, healthy: set<string>, x: string)
    requires a < b < |states| && x in CommittedChunks(states[a].db)
    requires WholeScan(c, states, steps, a, b, healthy)
    ensures ScannedChunk(c.r, healthy, Replicas(states[a].db, x), Replicas(states[b].db, x))
  {
    hide WholeScan, IsRunFromInit, Enabled, Apply, HealthyIds, ScannedChunk, Replicas, CommittedChunks, Midway, Listed;
    ScanParts(c, states, steps, a, b, healthy, a);
    ScanParts(c, states, steps, a, b, healthy, b - 1);
    Safety(c, states, steps, a);
    ListStarts(c, healthy, states[a], steps[a]);
    MidwayInRun(c, states, steps, a, b, healthy, b - 1);
    ScanEnds(c, states[b - 1], steps[b - 1]);
    MidwayOver(c, healthy, states[a].db, steps[a].scan.chunks, states[b - 1], x);
  }

  lemma MidwayOver(c: Config, healthy: set<string>, start: Db, chunks: seq<string>, s: State, x: string)
    requires Midway(c, healthy, start, chunks, s) && s.scanner.index >= |s.scanner.chunks| && x in Elems(chunks)
    ensures ScannedChunk(c.r, healthy, Replicas(start, x), Replicas(s.db, x))
  {
    hide ScannedChunk, Replicas, PhaseRight;
  }

  /** While the scan is under way no chunk rises above the replication factor either. */
  lemma NeverAboveMidway(c: Config, states: seq<State>, steps: seq<Step>, a: nat, b: nat, healthy: set<string>, f: string, x: string, k: nat)
    requires a <= k <= b < |states| && CommittedAt(states[a], f) && x in ChunkIds(states[a].db, f)
    requires WholeScan(c, states, steps, a, b, healthy)
    ensures Replicas(states[a].db, x) <= Replicas(states[k].db, x)
    ensures |Replicas(states[k].db, x) * healthy| <= Max(c.r, |Replicas(states[a].db, x) * healthy|)
  {
    ScanOrder(c, states, steps, a, b, healthy);
    hide WholeScan, Replicas, CommittedChunks, Midway, HealthyIds;
    if a < k < b {
      MidwayInRun(c, states, steps, a, b, healthy, k);
      ScanLists(states[a].db, f, x);
      MidwayAt(c, healthy, states[a].db, steps[a].scan.chunks, states[k], x);
    } else if k == b {
      InterleavedScanExact(c, states, steps, a, b, healthy, f, x);
    }
    if Replicas(states[k].db, x) != Replicas(states[a].db, x) {
      ScanCount(c.r, healthy, Replicas(states[a].db, x), Replicas(states[k].db, x));
    }
  }

  lemma MidwayAt(c: Config, healthy: set<string>, start: Db, chunks: seq<string>, s: State, x: string)
    requires Midway(c, healthy, start, chunks, s) && x in Elems(chunks)
    ensures Replicas(s.db, x) == Replicas(start, x) || ScannedChunk(c.r, healthy, Replicas(start, x), Replicas(s.db, x))
  {
    hide ScannedChunk, Replicas, PhaseRight;
  }

  // ---- Scan after scan ----

  /** Scans one after the other, with any pauses and other steps between and during them; the file of `x` is committed
      whenever a scan starts. Nodes may fail and return between the scans. */
  ghost predicate ScanSeries(c: Config, states: seq<State>, steps: seq<Step>, starts: seq<nat>, ends: seq<nat>, healthy: set<string>, f: string, x: string) {
    && |starts| == |ends|
    && (forall j :: 0 <= j < |starts| ==>
          && WholeScan(c, states, steps, starts[j], ends[j], healthy)
          && CommittedAt(states[starts[j]], f) && x in ChunkIds(states[starts[j]].db, f))
    && (forall j :: 0 <= j < |starts| - 1 ==> Paused(states, ends[j], starts[j + 1]))
  }

  ghost predicate Paused(states: seq<State>, p: nat, q: nat) {
    p <= q < |states| && forall k :: p <= k <= q ==> states[k].scanner.Idle?
  }

  lemma {:induction false} PauseKeepsRows(c: Config, states: seq<State>, steps: seq<Step>, p: nat, q: nat, x: string)
    requires IsRunFromInit(c, states, steps) && Paused(states, p, q) && EverCommittedChunk(states[p], x)
    ensures Replicas(states[q].db, x) == Replicas(states[p].db, x)
    decreases q
  {
    hide IsRunFromInit, Enabled, Apply, Sound, Replicas, EverCommittedChunk, OnlyGrows;
    if p < q {
      RunLength(c, states, steps);
      PauseKeepsRows(c, states, steps, p, q - 1, x);
      GrowsOverRun(c, states, steps, p, q - 1);
      StaysCommitted(states[p], states[q - 1], x);
      Safety(c, states, steps, q - 1);
      RunStep(c, states, steps, q - 1);
      StepGains(c, states[q - 1], steps[q - 1], x);
    }
  }

  lemma CommittedChunkIsEver(c: Config, s: State, f: string, x: string)
    requires Sound(c, s) && CommittedAt(s, f) && x in ChunkIds(s.db, f)
    ensures EverCommittedChunk(s, x)
  {
    hide Shape, Rows, Plans, ClientsSound, ScannerSound, Conserved;
  }

  lemma SeriesLink(c: Config, states: seq<State>, steps: seq<Step>, starts: seq<nat>, ends: seq<nat>, healthy: set<string>, f: string, x: string, j: nat)
    requires ScanSeries(c, states, steps, starts, ends, healthy, f, x) && j < |starts| - 1
    ensures starts[j + 1] < |states| && ends[j] < |states|
    ensures Replicas(states[starts[j + 1]].db, x) == Replicas(states[ends[j]].db, x)
  {
    assert WholeScan(c, states, steps, starts[j], ends[j], healthy);
    ScanOrder(c, states, steps, starts[j], ends[j], healthy);
    ScanParts(c, states, steps, starts[j], ends[j], healthy, starts[j]);
    assert Paused(states, ends[j], starts[j + 1]);
    hide WholeScan, IsRunFromInit, Enabled, Apply, Sound, Replicas, EverCommittedChunk, OnlyGrows, CommittedChunks, HealthyIds;
    Safety(c, states, steps, starts[j]);
    CommittedChunkIsEver(c, states[starts[j]], f, x);
    GrowsOverRun(c, states, steps, starts[j], ends[j]);
    StaysCommitted(states[starts[j]], states[ends[j]], x);
    PauseKeepsRows(c, states, steps, ends[j], starts[j + 1], x);
  }

  ghost predicate InOrder(states: seq<State>, starts: seq<nat>, ends: seq<nat>) {
    |starts| == |ends| && forall j :: 0 <= j < |starts| ==> starts[j] < ends[j] < |states|
  }

  lemma SeriesOrder(c: Config, states: seq<State>, steps: seq<Step>, starts: seq<nat>, ends: seq<nat>, healthy: set<string>, f: string, x: string)
    requires ScanSeries(c, states, steps, starts, ends, healthy, f, x)
    ensures InOrder(states, starts, ends)
  {
    forall j | 0 <= j < |starts| ensures starts[j] < ends[j] < |states| {
      ScanOrder(c, states, steps, starts[j], ends[j], healthy);
    }
    hide WholeScan, Paused, CommittedChunks;
  }

  /** The holders of `x` before the first scan, and after each of the scans. */
  ghost function HoldersAfter(states: seq<State>, starts: seq<nat>, ends: seq<nat>, x: string, j: nat): set<string>
    requires InOrder(states, starts, ends) && j <= |starts| && starts != []
  {
    if j == 0 then Replicas(states[starts[0]].db, x) else Replicas(states[ends[j - 1]].db, x)
  }

  lemma SeriesScan(c: Config, states: seq<State>, steps: seq<Step>, starts: seq<nat>, ends: seq<nat>, healthy: set<string>, f: string, x: string, j: nat)
    requires ScanSeries(c, states, steps, starts, ends, healthy, f, x) && j < |starts|
    ensures InOrder(states, starts, ends)
    ensures ScannedChunk(c.r, healthy, HoldersAfter(states, starts, ends, x, j), HoldersAfter(states, starts, ends, x, j + 1))
  {
    SeriesOrder(c, states, steps, starts, ends, healthy, f, x);
    hide ScannedChunk, Replicas, Paused, WholeScan, CommittedChunks;
    InterleavedScanExact(c, states, steps, starts[j], ends[j], healthy, f, x);
    hide ScanSeries;
    if j > 0 {
      SeriesLink(c, states, steps, starts, ends, healthy, f, x, j - 1);
    }
  }

  /** The closed form of convergence, for scans that clients, heartbeats and the monitor interleave with. */
  lemma InterleavedScansConverge(c: Config, states: seq<State>, steps: seq<Step>, starts: seq<nat>, ends: seq<nat>, healthy: set<string>, f: string, x: string)
    requires ScanSeries(c, states, steps, starts, ends, healthy, f, x) && starts != []
    ensures InOrder(states, starts, ends)
    ensures |HoldersAfter(states, starts, ends, x, |starts|) * healthy|
            == Converged(c.r, |healthy|, |HoldersAfter(states, starts, ends, x, 0) * healthy|, |starts|)
  {
    hide ScanSeries, ScannedChunk, HoldersAfter, InOrder, Converged;
    SeriesOrder(c, states, steps, starts, ends, healthy, f, x);
    var m := |starts|;
    var history := seq(m + 1, j requires 0 <= j < m + 1 => HoldersAfter(states, starts, ends, x, j));
    forall j | 0 <= j < m ensures ScannedChunk(c.r, healthy, history[j], history[j + 1]) {
      SeriesScan(c, states, steps, starts, ends, healthy, f, x, j);
    }
    ScansConverge(c.r, healthy, history, m);
  }
}
