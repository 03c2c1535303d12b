/** Replicas of a chunk agree: across fetch, verified read, local put and row insert, under interleaving. */
module ReplicaAgreement {
  import opened Prelude
  import opened Tables
  import opened ControlPlane
  import opened CopyChunk
  import opened ControlPlaneSafety
  import opened ReplicaRows
  import ControlPlaneTheorems
  import ChunkFile
  import ChunkPlan
  import FileLifecycle
  import Registry
  import Repair

  // ---- Assumptions on a run ----

  /** Nodes announce the address they listen on. */
  ghost predicate Truthful(c: Config, steps: seq<Step>) {
    forall i :: 0 <= i < |steps| && steps[i].ByClient? && steps[i].client.BeatStart? ==>
      steps[i].client.address == c.home(steps[i].client.nodeId)
  }

  /** A node's file of `x` is removed, or replaced by a Put that overlapped another one. */
  ghost predicate Loses(step: Step, x: string) {
    step.ByDisk? && (step.disk.DeleteChunk? || step.disk.OverwriteChunk?) && step.disk.id == x
  }

  /** From step `since` on nobody deletes chunk `x` from a node, and Puts of it to one node do not overlap. */
  ghost predicate Keeps(steps: seq<Step>, x: string, since: nat) {
    forall i :: since <= i < |steps| ==> !Loses(steps[i], x)
  }

  /** Whatever is uploaded as chunk `x` is one of `payloads`. */
  ghost predicate Uploads(steps: seq<Step>, x: string, payloads: set<ChunkFile.Bytes>) {
    forall i :: 0 <= i < |steps| && steps[i].ByDisk? && !steps[i].disk.DeleteChunk? && steps[i].disk.id == x ==>
      steps[i].disk.data in payloads
  }

  /** Every node's file of chunk `x`, if it has one, is intact and holds one of `payloads`. */
  ghost predicate FilesKnown(c: Config, s: State, x: string, payloads: set<ChunkFile.Bytes>) {
    forall a :: a in s.disks ==> FileKnown(c.sha, s.disks[a], x, payloads)
  }

  ghost predicate FileKnown(sha: ChunkFile.Sha, d: Disk, x: string, payloads: set<ChunkFile.Bytes>) {
    ChunkFile.Path(d.base, x) in d.files ==>
      && ChunkFile.Intact(sha, d.files[ChunkFile.Path(d.base, x)])
      && ChunkFile.Payload(d.files[ChunkFile.Path(d.base, x)]) in payloads
  }

  // ---- What holds at a node ----

  /** Node `n` serves exactly `data` for chunk `x`. */
  ghost predicate Serves(c: Config, s: State, n: string, x: string, data: ChunkFile.Bytes) {
    c.home(n) in s.disks && Read(c.sha, s.disks[c.home(n)], x) == Ok(data)
  }

  /** Every listed replica of `x` serves `data`. */
  ghost predicate Agree(c: Config, s: State, x: string, data: ChunkFile.Bytes) {
    forall n :: n in Replicas(s.db, x) ==> Serves(c, s, n, x, data)
  }

  /** Every chunk read that succeeded before still yields the same bytes. */
  ghost predicate ReadsStable(c: Config, s: State, s': State, x: string) {
    forall a, data :: a in s.disks && Read(c.sha, s.disks[a], x) == Ok(data) ==>
      a in s'.disks && Read(c.sha, s'.disks[a], x) == Ok(data)
  }

  // ---- Single puts and deletes ----

  lemma PutKeepsRead(sha: ChunkFile.Sha, base: string, files: ChunkFile.Files, id: string, data: ChunkFile.Bytes, x: string)
    requires ChunkFile.GetChunk(sha, base, files, x).Ok?
    ensures ChunkFile.GetChunk(sha, base, ChunkFile.PutChunk(sha, base, files, id, data).files, x)
            == ChunkFile.GetChunk(sha, base, files, x)
  {
    if ChunkFile.Path(base, id) == ChunkFile.Path(base, x) {
      ChunkFile.PathInjective(base, id, x);
    }
    hide ChunkFile.Path, ChunkFile.Intact, ChunkFile.Encode, ChunkFile.HeaderMatches;
  }

  lemma OverwriteKeepsRead(sha: ChunkFile.Sha, base: string, files: ChunkFile.Files, id: string, data: ChunkFile.Bytes, x: string)
    requires id != x
    ensures ChunkFile.GetChunk(sha, base, ChunkFile.OverwriteChunk(sha, base, files, id, data), x)
            == ChunkFile.GetChunk(sha, base, files, x)
  {
    if ChunkFile.Path(base, id) == ChunkFile.Path(base, x) {
      ChunkFile.PathInjective(base, id, x);
    }
    hide ChunkFile.Path, ChunkFile.Intact, ChunkFile.Encode;
  }

  lemma DeleteKeepsRead(sha: ChunkFile.Sha, base: string, files: ChunkFile.Files, id: string, x: string)
    requires ChunkFile.GetChunk(sha, base, files, x).Ok? && id != x
    ensures ChunkFile.GetChunk(sha, base, ChunkFile.DeleteChunk(base, files, id), x) == ChunkFile.GetChunk(sha, base, files, x)
  {
    if ChunkFile.Path(base, id) == ChunkFile.Path(base, x) {
      ChunkFile.PathInjective(base, id, x);
    }
    hide ChunkFile.Path, ChunkFile.Intact;
  }

  /** A put that reports success leaves the data readable, unless there was a damaged file or one whose payload collides. */
  lemma PutServes(sha: ChunkFile.Sha, base: string, files: ChunkFile.Files, id: string, data: ChunkFile.Bytes)
    requires ChunkFile.Path(base, id) in files ==>
      && ChunkFile.Intact(sha, files[ChunkFile.Path(base, id)])
      && !ChunkFile.Collide(sha, ChunkFile.Payload(files[ChunkFile.Path(base, id)]), data)
    requires ChunkFile.PutChunk(sha, base, files, id, data).outcome.Ok?
    ensures ChunkFile.GetChunk(sha, base, ChunkFile.PutChunk(sha, base, files, id, data).files, id) == Ok(data)
  {
    ChunkFile.MaxSizeFits();
    ChunkFile.IntactIffEncoded(sha, ChunkFile.Encode(sha, data), data);
    hide ChunkFile.Path, ChunkFile.Encode;
  }

  lemma PutKeepsKnown(sha: ChunkFile.Sha, d: Disk, id: string, data: ChunkFile.Bytes, x: string, payloads: set<ChunkFile.Bytes>)
    requires FileKnown(sha, d, x, payloads) && (id == x ==> data in payloads)
    ensures FileKnown(sha, d.(files := ChunkFile.PutChunk(sha, d.base, d.files, id, data).files), x, payloads)
  {
    ChunkFile.MaxSizeFits();
    if |data| <= ChunkFile.MAX_SIZE {
      ChunkFile.IntactIffEncoded(sha, ChunkFile.Encode(sha, data), data);
    }
    if ChunkFile.Path(d.base, id) == ChunkFile.Path(d.base, x) {
      ChunkFile.PathInjective(d.base, id, x);
    }
    hide ChunkFile.Path, ChunkFile.Encode, ChunkFile.Intact;
  }

  lemma OverwriteKeepsKnown(sha: ChunkFile.Sha, d: Disk, id: string, data: ChunkFile.Bytes, x: string, payloads: set<ChunkFile.Bytes>)
    requires FileKnown(sha, d, x, payloads) && (id == x ==> data in payloads) && |data| <= ChunkFile.MAX_SIZE
    ensures FileKnown(sha, d.(files := ChunkFile.OverwriteChunk(sha, d.base, d.files, id, data)), x, payloads)
  {
    ChunkFile.MaxSizeFits();
    ChunkFile.IntactIffEncoded(sha, ChunkFile.Encode(sha, data), data);
    if ChunkFile.Path(d.base, id) == ChunkFile.Path(d.base, x) {
      ChunkFile.PathInjective(d.base, id, x);
    }
    hide ChunkFile.Path, ChunkFile.Encode, ChunkFile.Intact;
  }

  // ---- Disks over one step ----

  /** Either no disk changed, or one did by a put or an overwrite, of one of `payloads` if for `x`, or by a delete;
      `x` is overwritten or deleted only if it is `loose`. */
  ghost predicate DiskChange(c: Config, s: State, s': State, x: string, payloads: set<ChunkFile.Bytes>, loose: bool) {
    || s'.disks == s.disks
    || (exists a, id, data :: a in s.disks && (id == x ==> data in payloads) && s'.disks == PutOn(c, s.disks, a, id, data))
    || (exists a, id, data :: a in s.disks && (id == x ==> loose && data in payloads) && |data| <= ChunkFile.MAX_SIZE
          && s'.disks == OverwriteOn(c, s.disks, a, id, data))
    || (exists a, id :: a in s.disks && (id == x ==> loose) && s'.disks == DeleteOn(s.disks, a, id))
  }

  ghost function PutOn(c: Config, disks: map<string, Disk>, a: string, id: string, data: ChunkFile.Bytes): map<string, Disk>
    requires a in disks
  {
    disks[a := disks[a].(files := ChunkFile.PutChunk(c.sha, disks[a].base, disks[a].files, id, data).files)]
  }

  ghost function OverwriteOn(c: Config, disks: map<string, Disk>, a: string, id: string, data: ChunkFile.Bytes): map<string, Disk>
    requires a in disks
  {
    disks[a := disks[a].(files := ChunkFile.OverwriteChunk(c.sha, disks[a].base, disks[a].files, id, data))]
  }

  ghost function DeleteOn(disks: map<string, Disk>, a: string, id: string): map<string, Disk>
    requires a in disks
  {
    disks[a := disks[a].(files := ChunkFile.DeleteChunk(disks[a].base, disks[a].files, id))]
  }

  lemma DiskStepChange(c: Config, s: State, step: DiskStep, x: string, payloads: set<ChunkFile.Bytes>, loose: bool)
    requires DiskEnabled(s, step) && (Loses(ByDisk(step), x) ==> loose)
    requires !step.DeleteChunk? && step.id == x ==> step.data in payloads
    ensures DiskChange(c, s, ApplyDisk(c, s, step), x, payloads, loose)
  {
    hide ChunkFile.PutChunk, ChunkFile.OverwriteChunk, ChunkFile.DeleteChunk;
    match step
    case PutChunk(a, id, data) => assert ApplyDisk(c, s, step).disks == PutOn(c, s.disks, a, id, data);
    case OverwriteChunk(a, id, data) => assert ApplyDisk(c, s, step).disks == OverwriteOn(c, s.disks, a, id, data);
    case DeleteChunk(a, id) => assert ApplyDisk(c, s, step).disks == DeleteOn(s.disks, a, id);
  }

  lemma TransferChange(c: Config, s: State, step: ScanStep, x: string, payloads: set<ChunkFile.Bytes>, loose: bool)
    requires ScanEnabled(s, step) && (step.ScanFetch? || step.ScanStore? || step.ScanRecord?)
    requires CarriesKnown(s.scanner, x, payloads)
    ensures DiskChange(c, s, ApplyTransfer(c, s, step), x, payloads, loose)
  {
    hide ChunkFile.PutChunk, Read, InsertLocation;
    if step.ScanStore? {
      var k := s.scanner;
      var a := k.phase.target.node.address;
      if a in s.disks {
        assert PutOn(c, s.disks, a, k.chunks[k.index], k.phase.data)
               == s.disks[a := s.disks[a].(files := ChunkFile.PutChunk(c.sha, s.disks[a].base, s.disks[a].files, k.chunks[k.index], k.phase.data).files)];
      }
    }
  }

  lemma ScanChange(c: Config, s: State, step: ScanStep, x: string, payloads: set<ChunkFile.Bytes>, loose: bool)
    requires ScanEnabled(s, step) && CarriesKnown(s.scanner, x, payloads)
    ensures DiskChange(c, s, ApplyScan(c, s, step), x, payloads, loose)
  {
    if step.ScanFetch? || step.ScanStore? || step.ScanRecord? {
      TransferChange(c, s, step, x, payloads, loose);
      hide ApplyTransfer, ScanEnabled, DiskChange;
    } else {
      hide Lists, HealthyRows, Replicas, CommittedChunks, Elems;
    }
  }

  lemma StepChange(c: Config, s: State, step: Step, x: string, payloads: set<ChunkFile.Bytes>, loose: bool)
    requires Enabled(c, s, step) && CarriesKnown(s.scanner, x, payloads)
    requires Loses(step, x) ==> loose
    requires step.ByDisk? && !step.disk.DeleteChunk? && step.disk.id == x ==> step.disk.data in payloads
    ensures DiskChange(c, s, Apply(c, s, step), x, payloads, loose)
  {
    hide ClientEnabled, ScanEnabled, ApplyClient, ApplyScan, DiskEnabled, ApplyDisk, Registry.Verdict;
    match step {
      case ByClient(k) => ClientKeepsDisks(c, s, k);
      case ByScanner(k) => ScanChange(c, s, k, x, payloads, loose);
      case ByDisk(k) => DiskStepChange(c, s, k, x, payloads, loose);
      case _ =>
    }
  }

  lemma ChangeKeepsReads(c: Config, s: State, s': State, x: string, payloads: set<ChunkFile.Bytes>)
    requires DiskChange(c, s, s', x, payloads, false)
    ensures ReadsStable(c, s, s', x)
  {
    forall b, content | b in s.disks && Read(c.sha, s.disks[b], x) == Ok(content)
      ensures b in s'.disks && Read(c.sha, s'.disks[b], x) == Ok(content)
    {
      if s'.disks == s.disks {
      } else if a, id, data :| a in s.disks && s'.disks == PutOn(c, s.disks, a, id, data) {
        if a == b {
          PutKeepsRead(c.sha, s.disks[a].base, s.disks[a].files, id, data, x);
        }
      } else if a, id, data :| a in s.disks && id != x && s'.disks == OverwriteOn(c, s.disks, a, id, data) {
        if a == b {
          OverwriteKeepsRead(c.sha, s.disks[a].base, s.disks[a].files, id, data, x);
        }
      } else {
        var a, id :| a in s.disks && id != x && s'.disks == DeleteOn(s.disks, a, id);
        if a == b {
          DeleteKeepsRead(c.sha, s.disks[a].base, s.disks[a].files, id, x);
        }
      }
    }
  }

  lemma ChangeKeepsKnown(c: Config, s: State, s': State, x: string, payloads: set<ChunkFile.Bytes>, loose: bool)
    requires DiskChange(c, s, s', x, payloads, loose) && FilesKnown(c, s, x, payloads)
    ensures FilesKnown(c, s', x, payloads)
  {
    forall b | b in s'.disks ensures FileKnown(c.sha, s'.disks[b], x, payloads) {
      if s'.disks == s.disks {
      } else if a, id, data :| a in s.disks && (id == x ==> data in payloads) && s'.disks == PutOn(c, s.disks, a, id, data) {
        hide FileKnown;
        if a == b {
          PutKeepsKnown(c.sha, s.disks[a], id, data, x, payloads);
        }
      } else if a, id, data :| a in s.disks && (id == x ==> data in payloads) && |data| <= ChunkFile.MAX_SIZE
                               && s'.disks == OverwriteOn(c, s.disks, a, id, data) {
        hide FileKnown;
        if a == b {
          OverwriteKeepsKnown(c.sha, s.disks[a], id, data, x, payloads);
        }
      } else {
        var a, id :| a in s.disks && (id == x ==> loose) && s'.disks == DeleteOn(s.disks, a, id);
        hide ChunkFile.Path, ChunkFile.Intact;
      }
    }
  }

  // ---- Addresses ----

  ghost predicate RowTrue(c: Config, row: NodeRow) {
    row.node.address == c.home(row.id)
  }

  ghost predicate PhaseTrue(c: Config, p: Phase) {
    match p
    case Gathering(_, q) => forall i :: 0 <= i < |q| ==> RowTrue(c, q[i])
    case Looking(_, q) => forall i :: 0 <= i < |q| ==> RowTrue(c, q[i])
    case Choosing(a) => RowTrue(c, a)
    case Fetching(a, b) => RowTrue(c, a) && RowTrue(c, b)
    case Storing(a, b, _) => RowTrue(c, a) && RowTrue(c, b)
    case Recording(a, b, _) => RowTrue(c, a) && RowTrue(c, b)
    case _ => true
  }

  ghost predicate NodesTrue(c: Config, db: Db) {
    forall n :: n in db.nodes ==> db.nodes[n].address == c.home(n)
  }

  ghost predicate ClientsTrue(c: Config, clients: map<nat, Client>) {
    forall t :: t in clients ==>
      && (clients[t].Beating? ==> clients[t].address == c.home(clients[t].nodeId))
      && (clients[t].Inserting? ==> clients[t].address == c.home(clients[t].nodeId))
  }

  /** Every stored, pending or remembered address is the node's own. */
  ghost predicate AddressesTrue(c: Config, s: State) {
    && NodesTrue(c, s.db)
    && ClientsTrue(c, s.clients)
    && (s.scanner.Scanning? ==> PhaseTrue(c, s.scanner.phase))
  }

  lemma PrepareKeepsAddresses(c: Config, s: State, step: ClientStep, rows: seq<ChunkRow>)
    requires AddressesTrue(c, s) && step.PrepareWrite? && step.client in s.clients && s.clients[step.client].Placing?
    ensures AddressesTrue(c, ApplyPrepare(s, step, rows))
  {
    var k := s.clients[step.client];
    var b := s.db.(files := s.db.files[step.fileId := File(k.name, k.size, Pending)],
                   sessions := s.db.sessions[step.sessionId := Session(step.fileId, Preparing)]);
    InsertChunkRowsExact(b, rows);
    hide InsertChunkRows, ChunkRowsFit;
  }

  lemma CommitKeepsAddresses(c: Config, s: State, q: string, m: map<string, seq<string>>)
    requires AddressesTrue(c, s)
    ensures AddressesTrue(c, ApplyCommit(c, s, q, m))
  {
    hide FileLifecycle.Covers, FileLifecycle.RowsOf, ChunkIds;
  }

  lemma ClientKeepsAddresses(c: Config, s: State, step: ClientStep)
    requires AddressesTrue(c, s) && ClientEnabled(c, s, step)
    requires step.BeatStart? ==> step.address == c.home(step.nodeId)
    ensures AddressesTrue(c, ApplyClient(c, s, step))
  {
    hide ChunkPlan.ChunkCount, ChunkPlan.PlanRows, ApplyPrepare, ApplyCommit, Lists, HealthyRows, PhaseTrue;
    match step {
      case PrepareWrite(t, f, _, ids, _) =>
        hide AddressesTrue;
        PrepareKeepsAddresses(c, s, step, ChunkPlan.PlanRows(f, s.clients[t].size, c.chunkSize, ids));
      case Commit(q, m) =>
        hide AddressesTrue;
        CommitKeepsAddresses(c, s, q, m);
      case _ =>
    }
  }

  lemma ListedTrue(c: Config, db: Db, nodes: seq<NodeRow>)
    requires NodesTrue(c, db) && Lists(nodes, HealthyRows(db))
    ensures forall i :: 0 <= i < |nodes| ==> RowTrue(c, nodes[i])
  {
    forall i | 0 <= i < |nodes| ensures RowTrue(c, nodes[i]) {
      assert nodes[i] in Elems(nodes);
    }
  }

  lemma TransferKeepsAddresses(c: Config, s: State, step: ScanStep)
    requires AddressesTrue(c, s) && ScanEnabled(s, step) && (step.ScanFetch? || step.ScanStore? || step.ScanRecord?)
    ensures AddressesTrue(c, ApplyTransfer(c, s, step))
  {
    hide Read, ChunkFile.PutChunk, RowTrue;
  }

  lemma ScanKeepsAddresses(c: Config, s: State, step: ScanStep)
    requires AddressesTrue(c, s) && ScanEnabled(s, step)
    ensures AddressesTrue(c, ApplyScan(c, s, step))
  {
    match step {
      case ScanLook(nodes) =>
        ListedTrue(c, s.db, nodes);
        FindFound(nodes, s.scanner.locations[s.scanner.phase.next]);
        hide RowTrue, Lists, HealthyRows, NodesTrue, ClientsTrue, Find;
      case ScanChoose(nodes) =>
        ListedTrue(c, s.db, nodes);
        Repair.FirstWithoutFound(nodes, Elems(s.scanner.locations));
        hide RowTrue, Lists, HealthyRows, NodesTrue, ClientsTrue, Repair.FirstWithout, Elems;
      case ScanFetch => TransferKeepsAddresses(c, s, step); hide ApplyTransfer, AddressesTrue;
      case ScanStore => TransferKeepsAddresses(c, s, step); hide ApplyTransfer, AddressesTrue;
      case ScanRecord => TransferKeepsAddresses(c, s, step); hide ApplyTransfer, AddressesTrue;
      case _ => hide RowTrue, Lists, HealthyIds, NodesTrue, ClientsTrue, Replicas, CommittedChunks;
    }
  }

  lemma RestartKeepsAddresses(c: Config, s: State)
    requires AddressesTrue(c, s)
    ensures AddressesTrue(c, ApplyRestart(s))
  {
  }

  lemma AddressStep(c: Config, s: State, step: Step)
    requires AddressesTrue(c, s) && Enabled(c, s, step)
    requires step.ByClient? && step.client.BeatStart? ==> step.client.address == c.home(step.client.nodeId)
    ensures AddressesTrue(c, Apply(c, s, step))
  {
    hide ClientEnabled, ScanEnabled, ApplyClient, ApplyScan, PhaseTrue, ClientsTrue, Registry.Verdict, Lists, NodeRows;
    match step {
      case ByClient(k) => hide AddressesTrue; ClientKeepsAddresses(c, s, k);
      case ByScanner(k) => hide AddressesTrue; ScanKeepsAddresses(c, s, k);
      case Restart => RestartKeepsAddresses(c, s);
      case _ =>
    }
  }

  // ---- The copy in flight ----

  /** What repair carries as chunk `x` is one of `payloads`. */
  ghost predicate CarriesKnown(k: Scanner, x: string, payloads: set<ChunkFile.Bytes>) {
    CopyingChunk(k, x) && (k.phase.Storing? || k.phase.Recording?) ==> k.phase.data in payloads
  }

  /** What was fetched is what the source serves; once stored, the target serves it too. */
  ghost predicate TransferTrue(c: Config, s: State, x: string, payloads: set<ChunkFile.Bytes>) {
    CarriesKnown(s.scanner, x, payloads) &&
    (CopyingChunk(s.scanner, x) ==>
      && (s.scanner.phase.Storing? ==> Serves(c, s, s.scanner.phase.source.id, x, s.scanner.phase.data))
      && (s.scanner.phase.Recording? ==>
            && Serves(c, s, s.scanner.phase.source.id, x, s.scanner.phase.data)
            && Serves(c, s, s.scanner.phase.target.id, x, s.scanner.phase.data)))
  }

  lemma ServesStable(c: Config, s: State, s': State, n: string, x: string, data: ChunkFile.Bytes)
    requires ReadsStable(c, s, s', x) && Serves(c, s, n, x, data)
    ensures Serves(c, s', n, x, data)
  {
    hide Read;
  }

  lemma OtherTransfer(c: Config, s: State, s': State, x: string, payloads: set<ChunkFile.Bytes>)
    requires TransferTrue(c, s, x, payloads) && ReadsStable(c, s, s', x) && s'.scanner == s.scanner
    ensures TransferTrue(c, s', x, payloads)
  {
    hide Read;
  }

  lemma NothingCarried(c: Config, s: State, x: string, payloads: set<ChunkFile.Bytes>)
    requires s.scanner.Idle?
    ensures TransferTrue(c, s, x, payloads)
  {
  }

  lemma ReadIsKnown(sha: ChunkFile.Sha, d: Disk, x: string, payloads: set<ChunkFile.Bytes>)
    requires FileKnown(sha, d, x, payloads) && Read(sha, d, x).Ok?
    ensures Read(sha, d, x).value in payloads
  {
    hide ChunkFile.Path, ChunkFile.Intact;
  }

  lemma FetchTrue(c: Config, s: State, x: string, payloads: set<ChunkFile.Bytes>)
    requires FilesKnown(c, s, x, payloads) && AddressesTrue(c, s) && ScanEnabled(s, ScanFetch)
    ensures TransferTrue(c, ApplyTransfer(c, s, ScanFetch), x, payloads)
  {
    var k := s.scanner;
    var a := k.phase.source.node.address;
    if CopyingChunk(k, x) && a in s.disks && Read(c.sha, s.disks[a], x).Ok? {
      ReadIsKnown(c.sha, s.disks[a], x, payloads);
    }
    hide Read, FilesKnown, NodesTrue, ClientsTrue;
  }

  lemma StoreTrue(c: Config, s: State, x: string, payloads: set<ChunkFile.Bytes>)
    requires ChunkFile.Separates(c.sha, payloads) && FilesKnown(c, s, x, payloads)
    requires AddressesTrue(c, s) && TransferTrue(c, s, x, payloads) && ScanEnabled(s, ScanStore)
    requires ReadsStable(c, s, ApplyTransfer(c, s, ScanStore), x)
    ensures TransferTrue(c, ApplyTransfer(c, s, ScanStore), x, payloads)
  {
    var k, s' := s.scanner, ApplyTransfer(c, s, ScanStore);
    if CopyingChunk(k, x) && s'.scanner.phase.Recording? {
      var a := k.phase.target.node.address;
      var d := s.disks[a];
      assert FileKnown(c.sha, d, x, payloads);
      PutServes(c.sha, d.base, d.files, x, k.phase.data);
      ServesStable(c, s, s', k.phase.source.id, x, k.phase.data);
      hide ChunkFile.GetChunk, ChunkFile.PutChunk, ChunkFile.Path, ChunkFile.Intact;
      assert s'.disks[a] == d.(files := ChunkFile.PutChunk(c.sha, d.base, d.files, x, k.phase.data).files);
    }
    hide Read, ChunkFile.PutChunk, FilesKnown;
  }

  lemma ScanTransfer(c: Config, s: State, step: ScanStep, x: string, payloads: set<ChunkFile.Bytes>)
    requires ChunkFile.Separates(c.sha, payloads) && FilesKnown(c, s, x, payloads)
    requires AddressesTrue(c, s) && TransferTrue(c, s, x, payloads) && ScanEnabled(s, step)
    requires ReadsStable(c, s, ApplyScan(c, s, step), x)
    ensures TransferTrue(c, ApplyScan(c, s, step), x, payloads)
  {
    match step {
      case ScanFetch => FetchTrue(c, s, x, payloads); hide ApplyTransfer, ScanEnabled, TransferTrue;
      case ScanStore => StoreTrue(c, s, x, payloads); hide ApplyTransfer, ScanEnabled, TransferTrue;
      case ScanRecord => hide Serves, InsertLocation, ReadsStable, FilesKnown, AddressesTrue;
      case _ => hide Serves, ReadsStable, FilesKnown, AddressesTrue, Lists, HealthyIds, HealthyRows, Replicas, CommittedChunks, Find, Repair.FirstWithout;
    }
  }

  lemma TransferStep(c: Config, s: State, step: Step, x: string, payloads: set<ChunkFile.Bytes>)
    requires ChunkFile.Separates(c.sha, payloads) && FilesKnown(c, s, x, payloads)
    requires AddressesTrue(c, s) && TransferTrue(c, s, x, payloads) && Enabled(c, s, step)
    requires ReadsStable(c, s, Apply(c, s, step), x)
    ensures TransferTrue(c, Apply(c, s, step), x, payloads)
  {
    hide TransferTrue, ReadsStable, FilesKnown, AddressesTrue, ClientEnabled, ScanEnabled, ApplyClient, ApplyScan, Registry.Verdict, Lists, NodeRows;
    match step {
      case ByScanner(k) => ScanTransfer(c, s, k, x, payloads);
      case ByClient(k) =>
        ClientKeepsDisks(c, s, k);
        OtherTransfer(c, s, Apply(c, s, step), x, payloads);
      case Restart => NothingCarried(c, ApplyRestart(s), x, payloads);
      case _ => OtherTransfer(c, s, Apply(c, s, step), x, payloads);
    }
  }

  // ---- Runs ----

  /** No fetched copy of `x` is on its way. */
  ghost predicate NoneCarried(k: Scanner, x: string) {
    !(CopyingChunk(k, x) && (k.phase.Storing? || k.phase.Recording?))
  }

  /** The assumptions: truthful addresses; the files of `x` are intact at the start; nothing stored for it, at the start
      or later, collides; and from state `since` on, when no copy of it is on its way, `x` is not deleted and its Puts
      at one node exclude each other. */
  ghost predicate FairRun(c: Config, states: seq<State>, steps: seq<Step>, x: string, payloads: set<ChunkFile.Bytes>, since: nat) {
    && IsRunFromInit(c, states, steps)
    && ChunkFile.Separates(c.sha, payloads)
    && Truthful(c, steps)
    && Uploads(steps, x, payloads)
    && FilesKnown(c, states[0], x, payloads)
    && since < |states| && NoneCarried(states[since].scanner, x) && Keeps(steps, x, since)
  }

  ghost predicate NodesSound(c: Config, s: State, x: string, payloads: set<ChunkFile.Bytes>) {
    FilesKnown(c, s, x, payloads) && AddressesTrue(c, s) && CarriesKnown(s.scanner, x, payloads)
  }

  lemma FairStep(c: Config, states: seq<State>, steps: seq<Step>, x: string, payloads: set<ChunkFile.Bytes>, since: nat, i: nat)
    requires FairRun(c, states, steps, x, payloads, since) && i < |steps|
    ensures |states| == |steps| + 1
    ensures Enabled(c, states[i], steps[i]) && states[i + 1] == Apply(c, states[i], steps[i])
    ensures since <= i ==> !Loses(steps[i], x)
    ensures steps[i].ByDisk? && !steps[i].disk.DeleteChunk? && steps[i].disk.id == x ==> steps[i].disk.data in payloads
    ensures steps[i].ByClient? && steps[i].client.BeatStart? ==> steps[i].client.address == c.home(steps[i].client.nodeId)
  {
  }

  lemma FairParts(c: Config, states: seq<State>, steps: seq<Step>, x: string, payloads: set<ChunkFile.Bytes>, since: nat)
    requires FairRun(c, states, steps, x, payloads, since)
    ensures |states| == |steps| + 1 && IsRunFromInit(c, states, steps) && ChunkFile.Separates(c.sha, payloads)
    ensures since < |states| && NoneCarried(states[since].scanner, x)
    ensures NodesSound(c, states[0], x, payloads)
  {
  }

  lemma TransferCarries(c: Config, s: State, step: ScanStep, x: string, payloads: set<ChunkFile.Bytes>)
    requires FilesKnown(c, s, x, payloads) && CarriesKnown(s.scanner, x, payloads)
    requires ScanEnabled(s, step) && (step.ScanFetch? || step.ScanStore? || step.ScanRecord?)
    ensures CarriesKnown(ApplyTransfer(c, s, step).scanner, x, payloads)
  {
    var k := s.scanner;
    if step.ScanFetch? && CopyingChunk(k, x) {
      var a := k.phase.source.node.address;
      if a in s.disks && Read(c.sha, s.disks[a], x).Ok? {
        ReadIsKnown(c.sha, s.disks[a], x, payloads);
      }
    }
    hide Read, FilesKnown, InsertLocation, ChunkFile.PutChunk;
  }

  lemma CarriesStep(c: Config, s: State, step: Step, x: string, payloads: set<ChunkFile.Bytes>)
    requires FilesKnown(c, s, x, payloads) && CarriesKnown(s.scanner, x, payloads) && Enabled(c, s, step)
    ensures CarriesKnown(Apply(c, s, step).scanner, x, payloads)
  {
    hide FilesKnown, ClientEnabled, ApplyClient, ApplyTransfer, Registry.Verdict, Lists, NodeRows, HealthyRows, HealthyIds,
      Replicas, CommittedChunks, Find, Repair.FirstWithout;
    if step.ByScanner? && (step.scan.ScanFetch? || step.scan.ScanStore? || step.scan.ScanRecord?) {
      TransferCarries(c, s, step.scan, x, payloads);
    } else if step.ByClient? {
      ClientKeepsDisks(c, s, step.client);
    }
  }

  lemma {:induction false} NodesSoundInRun(c: Config, states: seq<State>, steps: seq<Step>, x: string, payloads: set<ChunkFile.Bytes>, since: nat, i: nat)
    requires FairRun(c, states, steps, x, payloads, since) && i < |states|
    ensures NodesSound(c, states[i], x, payloads)
  {
    hide FairRun, IsRunFromInit, Enabled, Apply, FilesKnown, AddressesTrue, CarriesKnown, NoneCarried, ChunkFile.Separates;
    FairParts(c, states, steps, x, payloads, since);
    if i > 0 {
      NodesSoundInRun(c, states, steps, x, payloads, since, i - 1);
      FairStep(c, states, steps, x, payloads, since, i - 1);
      var s, step := states[i - 1], steps[i - 1];
      StepChange(c, s, step, x, payloads, true);
      ChangeKeepsKnown(c, s, states[i], x, payloads, true);
      AddressStep(c, s, step);
      CarriesStep(c, s, step, x, payloads);
    }
  }

  lemma ReadsStableInRun(c: Config, states: seq<State>, steps: seq<Step>, x: string, payloads: set<ChunkFile.Bytes>, since: nat, i: nat)
    requires FairRun(c, states, steps, x, payloads, since) && since <= i < |steps|
    ensures |states| == |steps| + 1 && ReadsStable(c, states[i], states[i + 1], x)
  {
    hide FairRun, Enabled, Apply, FilesKnown, AddressesTrue, CarriesKnown, ReadsStable, DiskChange;
    FairStep(c, states, steps, x, payloads, since, i);
    NodesSoundInRun(c, states, steps, x, payloads, since, i);
    StepChange(c, states[i], steps[i], x, payloads, false);
    ChangeKeepsReads(c, states[i], states[i + 1], x, payloads);
  }

  lemma NoneCarriedTrue(c: Config, s: State, x: string, payloads: set<ChunkFile.Bytes>)
    requires NodesSound(c, s, x, payloads) && NoneCarried(s.scanner, x)
    ensures TransferTrue(c, s, x, payloads)
  {
    hide FilesKnown, AddressesTrue;
  }

  lemma {:induction false} TransfersTrueInRun(c: Config, states: seq<State>, steps: seq<Step>, x: string, payloads: set<ChunkFile.Bytes>, since: nat, i: nat)
    requires FairRun(c, states, steps, x, payloads, since) && since <= i < |states|
    ensures TransferTrue(c, states[i], x, payloads)
    decreases i
  {
    hide FairRun, IsRunFromInit, Enabled, Apply, TransferTrue, ReadsStable, NoneCarried, FilesKnown, AddressesTrue, CarriesKnown,
      ChunkFile.Separates;
    FairParts(c, states, steps, x, payloads, since);
    if i == since {
      NodesSoundInRun(c, states, steps, x, payloads, since, i);
      NoneCarriedTrue(c, states[i], x, payloads);
    } else {
      TransfersTrueInRun(c, states, steps, x, payloads, since, i - 1);
      NodesSoundInRun(c, states, steps, x, payloads, since, i - 1);
      ReadsStableInRun(c, states, steps, x, payloads, since, i - 1);
      FairStep(c, states, steps, x, payloads, since, i - 1);
      TransferStep(c, states[i - 1], steps[i - 1], x, payloads);
    }
  }

  /** A row is about to be recorded only when the source was read and verified and the target serves the same bytes. */
  lemma RecordedReplicaServesSourceData(c: Config, states: seq<State>, steps: seq<Step>, x: string, payloads: set<ChunkFile.Bytes>, since: nat, i: nat)
    requires FairRun(c, states, steps, x, payloads, since) && since <= i < |states|
    requires CopyingChunk(states[i].scanner, x) && states[i].scanner.phase.Recording?
    ensures Serves(c, states[i], states[i].scanner.phase.source.id, x, states[i].scanner.phase.data)
    ensures Serves(c, states[i], states[i].scanner.phase.target.id, x, states[i].scanner.phase.data)
  {
    TransfersTrueInRun(c, states, steps, x, payloads, since, i);
    hide FairRun, Serves;
  }

  // ---- Agreement ----

  lemma SourceIsReplica(c: Config, s: State, x: string)
    requires Sound(c, s) && CopyingChunk(s.scanner, x) && s.scanner.phase.Recording?
    ensures s.scanner.phase.source.id in Replicas(s.db, x)
  {
  }

  lemma AllServe(c: Config, s: State, s': State, x: string, data: ChunkFile.Bytes)
    requires Agree(c, s, x, data) && ReadsStable(c, s, s', x)
    ensures forall n :: n in Replicas(s.db, x) ==> Serves(c, s', n, x, data)
  {
    hide Replicas, Read;
  }

  /** The recorded target serves what the source serves. */
  lemma RecordedServes(c: Config, s: State, s': State, x: string, payloads: set<ChunkFile.Bytes>, data: ChunkFile.Bytes)
    requires Sound(c, s) && TransferTrue(c, s, x, payloads) && Agree(c, s, x, data) && ReadsStable(c, s, s', x)
    requires CopyingChunk(s.scanner, x) && s.scanner.phase.Recording?
    ensures Serves(c, s', s.scanner.phase.target.id, x, data)
  {
    SourceIsReplica(c, s, x);
    hide Sound, Replicas, Read, CopyingChunk, ReadsStable;
    assert Serves(c, s, s.scanner.phase.target.id, x, data);
    hide Agree, TransferTrue;
    ServesStable(c, s, s', s.scanner.phase.target.id, x, data);
  }

  /** One step keeps agreement: a new replica serves what its source serves, and old ones are never rewritten. */
  lemma AgreementStep(c: Config, s: State, step: Step, x: string, payloads: set<ChunkFile.Bytes>, data: ChunkFile.Bytes)
    requires Sound(c, s) && Enabled(c, s, step) && TransferTrue(c, s, x, payloads) && Agree(c, s, x, data)
    requires ReadsStable(c, s, Apply(c, s, step), x)
    requires EverCommittedChunk(s, x)
    ensures Agree(c, Apply(c, s, step), x, data)
  {
    StepGains(c, s, step, x);
    var s' := Apply(c, s, step);
    hide Sound, Enabled, Apply, Replicas, Serves, TransferTrue, CopyingChunk;
    AllServe(c, s, s', x, data);
    if Replicas(s'.db, x) != Replicas(s.db, x) {
      RecordedServes(c, s, s', x, payloads, data);
    }
    hide ReadsStable;
  }

  lemma AgreementRunStep(c: Config, states: seq<State>, steps: seq<Step>, x: string, payloads: set<ChunkFile.Bytes>, since: nat, data: ChunkFile.Bytes, j: nat)
    requires FairRun(c, states, steps, x, payloads, since) && since < j < |states|
    requires EverCommittedChunk(states[j - 1], x) && Agree(c, states[j - 1], x, data)
    ensures EverCommittedChunk(states[j], x) && Agree(c, states[j], x, data)
  {
    hide FairRun, IsRunFromInit, Enabled, Apply, Agree, Sound, EverCommittedChunk, ControlPlaneTheorems.OnlyGrows,
      NodesSound, NoneCarried, TransferTrue, ReadsStable;
    FairParts(c, states, steps, x, payloads, since);
    FairStep(c, states, steps, x, payloads, since, j - 1);
    var s, step := states[j - 1], steps[j - 1];
    ControlPlaneTheorems.GrowsOverRun(c, states, steps, j - 1, j);
    StaysCommitted(s, states[j], x);
    Safety(c, states, steps, j - 1);
    TransfersTrueInRun(c, states, steps, x, payloads, since, j - 1);
    ReadsStableInRun(c, states, steps, x, payloads, since, j - 1);
    AgreementStep(c, s, step, x, payloads, data);
  }

  /** From any state of a run in which all listed replicas of a committed chunk serve the same bytes, they do so in
      every later state, those added by repair included. */
  lemma {:induction false} AgreementOverRun(
    c: Config, states: seq<State>, steps: seq<Step>, x: string, payloads: set<ChunkFile.Bytes>, since: nat,
    data: ChunkFile.Bytes, i: nat, j: nat)
    requires FairRun(c, states, steps, x, payloads, since) && since <= i <= j < |states|
    requires x in states[i].db.chunks && states[i].db.chunks[x].fileId in states[i].db.files
    requires states[i].db.files[states[i].db.chunks[x].fileId].status == Committed
    requires Agree(c, states[i], x, data)
    ensures Agree(c, states[j], x, data)
    ensures EverCommittedChunk(states[j], x)
    decreases j
  {
    FairParts(c, states, steps, x, payloads, since);
    hide FairRun, IsRunFromInit, Agree, Sound, NodesSound;
    if j == i {
      Safety(c, states, steps, i);
      ControlPlaneTheorems.CommittedIsEver(c, states[i], states[i].db.chunks[x].fileId);
    } else {
      AgreementOverRun(c, states, steps, x, payloads, since, data, i, j - 1);
      AgreementRunStep(c, states, steps, x, payloads, since, data, j);
    }
  }
}
