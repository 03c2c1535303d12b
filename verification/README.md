# A verified model of the replicated chunk store

The system keeps files as chunks on storage nodes and their metadata in SQLite. Clients prepare, commit and
delete uploads; nodes send heartbeats; a monitor flips node statuses; a repair goroutine copies chunks that have
too few healthy replicas. This project models that logic in Dafny and proves what it guarantees.

## How the model is laid out

| module | contents |
|---|---|
| `Tables`, `SqliteStore` | the five tables with their PRIMARY KEY, UNIQUE and FOREIGN KEY rules; the store's statements, loops of inserts that can fail midway, and snapshot and rollback for `WithTx` |
| `ChunkPlan` | the chunk arithmetic of `PrepareUpload` in wrapping 64-bit integers |
| `Placement`, `Manifest`, `FileLifecycle` | replica placement by in-place shuffling; preparing, committing and deleting uploads; what the two transactions mean independently of their loops |
| `Registry`, `Repair` | heartbeats, node health and the monitor pass; the scan, repair and their convergence |
| `ChunkFile`, `DiskStore`, `WriteOnceMap`, `ByteAccounting` | the chunk file format, the store over a map from path to bytes, its refinement of a write-once map, crashes, and the concurrent store with its byte counter |
| `ConcurrentReads` | what readers see of the concurrent store: a sequence of whole Puts and Deletes |
| `Digests` | which assumptions about a 32-byte hash can be met |
| `CopyChunk` | a node fetching a chunk from another node and storing it |
| `ControlPlane` | one state machine in which all goroutines and nodes interleave, statement by statement |
| `ControlPlaneSafety`, `ControlPlaneTheorems`, `ControlPlanePlans`, `ReplicaRows`, `InterleavedScan`, `RepairBound`, `MonitorTiming`, `ReplicaAgreement`, `FileReadBack`, `FileDeletion` | what holds over every run of that machine |
| `RequestEffects` | what each request of that machine achieves when nothing comes between its steps |
| `RepairExample`, `OverRepair` | runs for every hash and payload: a repair that meets the assumptions, and repairs that lift a chunk above R |

Code that updates objects is modelled as classes whose methods are proved against functions of the old state
(`Tables.InsertLocationRows`, `FileLifecycle.AfterCommit`, `ChunkFile.PutChunk`, …). The state machine takes its
steps with the same functions, so what is proved of a method's effect is what the machine does. In the machine,
`CommitUpload` and the writes of `PrepareUpload` are one step each, because the store has a single connection.
`DeleteFile`, heartbeats, the monitor pass and the repair scan are sequences of steps, and any other step may come
between two of them. The metadata server may die between any two steps and restart with its tables. Any statement
may also fail for reasons of its own (`Drop`, `MonitorGlitch`, `ScanGlitch`). The history fields record what happened and influence no step. The class methods of `Manifest`, `Registry` and
`Repair` describe the same operations run without interruption.

## Assumptions

- SHA-256 is an arbitrary function to 32 bytes. Every such function has collisions (`EveryHashCollides`), so no lemma
  assumes that there are none. Where collisions matter, the hypothesis is that two given payloads do not collide, or
  that no two out of a finite set do, the set being all payloads stored at the start or uploaded during the run
  (`Separates`). Some hash meets it for any set of up to 256^32 payloads (`SeparatingHashExists`).
- The clock never goes back, and instants are nanoseconds since 1970.
- `os.Rename` is atomic and durable; `os.Open` fails only when the file is absent; joining paths is concatenation
  with `/`. Where a lemma asks for plain IDs, they consist of digits and capital letters, as ULIDs do.
- Orders that the program leaves open (map iteration, rows without ORDER BY, the shuffle, directory walks) and IDs
  are arbitrary, so each result holds for all of them.
- In `ControlPlane` a node's Put, the overwriting rename of a Put that overlapped another one, and Delete are single
  steps. `ConcurrentReads` shows that to readers every step of the concurrent store is one of these or no change.
- `ReplicaAgreement` assumes that nodes announce their own address, that the chunk's own files, where there are any at
  the start, are intact, and that from some state on, in which no copy of it is on its way, nobody deletes the chunk
  and Puts of it at one node exclude each other. Other files may be damaged or left over from a crash, and distinct
  addresses are not needed.

## Where the code and its descriptions differ

The model follows the code.

- `AddChunkLocation` is described as idempotent but is a plain INSERT that fails on a duplicate
  (internal/metadata/store/sqlite.go:287-300). `RepairBookkeepingNeverFails` shows why repair never meets that failure.
- `Put` is described as succeeding when a chunk exists with the same data (docs/storage-chunkstore-package.md:157),
  but compares the stored header only (internal/storage/chunkstore/store.go:132-147).
- `CommitUpload` does not check that the node IDs it is given are registered; `RepairExample` contains such a commit.
- The mutex protects `usedBytes` only; the existence check and the rename are not under it, and no capacity is
  enforced (internal/storage/chunkstore/store.go:132-201).

## Properties that hold only under a condition

- The plan partitions the file exactly when its size is at most 2^63 minus the chunk size. Beyond that the sum
  wraps: the plan is empty, and such an upload can never be committed, or the negative slice capacity panics
  (`PlanPartitionsExactly`, `ChunksPartitionFile`).
- Committing a prepared upload with its own plan succeeds exactly if the session is already finished, or the file
  is not deleted and is small enough to be planned (`PrepareThenCommit`).
- The byte counter equals a scan at quiescence exactly when nothing drifted; per-ID exclusion excludes drift, and
  two overlapping Puts of any absent chunk cause it. Step by step: it is exact as long as no rename lands on an
  existing file and no unlink removes a file whose size changed since the stat (`QuiescentExact`,
  `ExclusiveAccounting`, `CalmRunsAreExact`, `OverlappingPutsMiscount`).
- A recorded copy leaves at most R healthy holders if none of the health queries of its counting failed, and no holder
  became healthy between its own query and the recording (`RecordStaysWithinFactor`). In general the healthy holders after a
  recording are those counted, fewer than R, less those fallen since, plus those the count missed, plus the new one if
  still healthy (`RecordBalance`); a miss means a failed query or a late riser (`MissedMeans`). One of either is enough
  to exceed R (`RisingHolderExceeds`, `FailedQueryExceeds`).
- A readable chunk stays as it is until it is deleted, if its Puts exclude each other (`ReadsStayUntilUnlinked`). A
  content changes only by an unlink or by a rename onto its file (`ReadAfterStep`), and two overlapping Puts do replace
  a readable chunk (`OverlappingPutsOverwrite`).
- A successful copy agrees with its source exactly if the target had no file of that name, or an intact one whose
  payload does not collide with the source's (`CopyAgreesExactly`). A damaged file under a matching header is the
  failing case (`CorruptTargetPasses`), and it exists for every hash, ID and payload (`CorruptTargetExists`).
- A regularly beating node stays healthy if spacing + delay + one second, less a nanosecond, is within the failure
  timeout; with any smaller timeout some run marks it down (`RegularNodeStaysHealthy`, `BoundIsSharp`).

## Model

| member | source | states |
|---|---|---|
| `ControlPlaneSafety.Safety` | internal/metadata/manifest/manifest.go:40-282 | every state of every interleaved run satisfies the joint invariant over tables, pending requests, the repair goroutine's snapshot and the counters |
| `ControlPlaneTheorems.CommittedFilesAreReplicated` | internal/metadata/manifest/manifest.go:171-282 | in every reachable state each committed file has chunks, each chunk has at least R rows with distinct non-empty node IDs, and all foreign keys hold |
| `ControlPlaneTheorems.RepairBookkeepingNeverFails` | internal/metadata/repair/manager.go:72-227 | whenever repair is about to record a replica, the locations it read at scan time are still exactly the rows, and the INSERT violates no constraint |
| `ControlPlaneTheorems.RowsAreConserved` | internal/metadata/repair/manager.go:198-224 | location rows number exactly those inserted by commits plus repair successes; between chunks, attempts are successes plus failures plus those cut off by a restart |
| `ControlPlaneTheorems.CommitExactInRun` | internal/metadata/manifest/manifest.go:214-280 | in every reachable state, committing a preparing session of a pending file succeeds if and only if the map has exactly the file's chunks, each with at least R distinct non-empty IDs, and there is a chunk |
| `ControlPlaneTheorems.ChunkIndexesUnique` | internal/metadata/store/schema.go:20-27 | no reachable state has two chunks of one file with one index, so reading in index order is unambiguous |
| `ControlPlaneTheorems.GrowsOverRun` | internal/metadata/manifest/manifest.go:139-280 | over any stretch of a run statuses only advance pending, committed, deleted; deleted is absorbing; chunk and location rows and plans persist |
| `ControlPlaneTheorems.EverCommittedMeans` | internal/metadata/manifest/manifest.go:270-277 | the recorded set of ever-committed files is exactly the files committed in some earlier or present state |
| `ControlPlaneTheorems.SessionsCohere` | internal/metadata/manifest/manifest.go:188-212 | each file has exactly one session, finished if and only if the file was ever committed; a preparing session never has a committed file, so the early return at lines 206-208 is unreachable |
| `ControlPlanePlans.StoredPlan` | internal/metadata/manifest/manifest.go:53-113 | in every reachable state the chunk table holds for each file exactly the rows of the plan for its size |
| `ControlPlanePlans.ChunksPartitionFile` | internal/metadata/store/queries.go:48-53 | chunks read back in index order partition the file and cutting and joining gives its content back, exactly when the file is small enough to have chunks; committed files always are |
| `ControlPlanePlans.PrepareThenCommit` | internal/metadata/manifest/manifest.go:40-282 | after any interleaving, committing a prepared session with its own plan succeeds exactly if it is finished already, or the file is not deleted and was plannable; then the file is committed |
| `FileReadBack.CommittedFileReadsBack` | internal/metadata/manifest/manifest.go:129-136 | if all listed replicas of a committed file's chunks serve their pieces of a content, then in every later state the file has the same chunks, and reading them in index order, each from any node then listed, gives exactly those pieces, which join to that content |
| `FileReadBack.ReadsExist` | internal/metadata/manifest/manifest.go:171-282 | with R > 0 such reads can be done in every later state |
| `ReplicaAgreement.AgreementOverRun` | internal/metadata/repair/manager.go:190-210 | in runs in which no two payloads stored for the chunk collide, and from a state on its Puts at one node exclude each other and nobody deletes it: if all listed replicas of a committed chunk serve the same bytes at one time, all listed replicas do so ever after, new ones included |
| `ReplicaAgreement.RecordedReplicaServesSourceData` | cmd/storaged/node_server.go:78-90 | in such runs a row is recorded only while source and target both serve the bytes that were fetched and verified |
| `RepairExample.RepairRunExists` | internal/metadata/repair/manager.go:117-227 | for every hash and payload some run meets all those assumptions, with an agreeing committed chunk whose new replica is about to be recorded |
| `ReplicaAgreement.PutServes` | internal/storage/chunkstore/store.go:132-203 | a put that reports success leaves exactly its data readable, if there was no file, or an intact one whose payload does not collide |
| `MonitorTiming.PassDecides` | internal/metadata/registry/registry.go:110-131 | from any statuses, after a complete pass during which no heartbeat of the node is stored and no update of it fails, it is healthy if and only if its heartbeat age is at most the timeout, whatever else is interleaved |
| `MonitorTiming.SilentNodeGoesDown` | internal/metadata/registry/registry.go:117-126 | a node silent since t is down after the first complete pass reading the clock later than t plus the timeout |
| `MonitorTiming.FreshNodeRestored` | internal/metadata/registry/registry.go:128-130 | a fresh node is healthy after the next such pass, even if it was wrongly marked down |
| `MonitorTiming.BeatsStoredInRun` | internal/metadata/store/sqlite.go:490-537 | a row's timestamp is always the whole second of the last stored heartbeat, although update and insert are separate statements |
| `MonitorTiming.RegularNodeStaysHealthy` | internal/metadata/registry/registry.go:110-131 | a node whose heartbeats are at most H apart is healthy in every state if H plus the snapshot-to-clock delay plus a second less a nanosecond is within the timeout |
| `MonitorTiming.BoundIsSharp` | internal/metadata/registry/registry.go:110-126 | for every spacing, delay and smaller timeout there is a run that marks such a node down |
| `Repair.ScansConverge` | internal/metadata/repair/manager.go:62-227 | after k failure-free scans a chunk with h > 0 healthy replicas has max(h, min(R, healthy nodes, h + k)) of them, and one with none keeps none |
| `Repair.DatabaseConverges` | internal/metadata/repair/manager.go:62-115 | the same closed form for every committed chunk over a sequence of whole scans of the tables |
| `Repair.ScanProgress` | internal/metadata/repair/manager.go:72-113 | a failure-free scan strictly lowers the total deficit of repairable chunks, unless that is zero, and then and only then it changes no chunk |
| `InterleavedScan.InterleavedScanExact` | internal/metadata/repair/manager.go:62-227 | with clients, heartbeats, the monitor and node requests interleaved anywhere, the same nodes staying healthy and no failure, a scan gives each chunk committed at its start one more healthy replica if it has some but fewer than R and a healthy node without one exists, and leaves it alone otherwise |
| `InterleavedScan.NeverAboveMidway` | internal/metadata/repair/manager.go:99-113 | in every state during a scan as in `InterleavedScanExact`, no chunk has lost a replica, or has more than R healthy ones unless it had them at the start |
| `Repair.NeverAboveFactor` | internal/metadata/repair/manager.go:99-113 | a scan run alone, whichever attempts fail, removes no row, adds at most one per chunk and lifts no chunk above R; `RecordStaysWithinFactor` has the condition for interleaved ones |
| `RepairBound.RecordBalance` | internal/metadata/repair/manager.go:83-218 | in every run, when a copy is recorded, the healthy holders number exactly those counted, fewer than R, less those fallen since, plus those missed by the count, plus the new one if still healthy |
| `RepairBound.MissedMeans` | internal/metadata/repair/manager.go:85-97 | a healthy holder that the count missed had its query fail, or became healthy after its query |
| `RepairBound.RecordStaysWithinFactor` | internal/metadata/repair/manager.go:99-218 | in every run, nodes going down and failed copies included, a recorded copy leaves at most R healthy holders if since its own query no holder became healthy and none of the queries failed |
| `RepairBound.TurnBegins` | internal/metadata/repair/manager.go:72-81 | whatever repair is doing for a chunk follows an earlier reading of that chunk's locations |
| `OverRepair.RisingHolderExceeds` | internal/metadata/repair/manager.go:85-97 | for every hash and payload a run without failures in which one holder becomes healthy after it was asked for, and repair exceeds R |
| `OverRepair.FailedQueryExceeds` | internal/metadata/repair/manager.go:86-93 | for every hash and payload a run in which the same nodes stay healthy throughout the scan, one health query fails, and repair exceeds R |
| `RepairExample.RepairingScanExists` | internal/metadata/repair/manager.go:62-227 | for every hash and payload there is such a whole scan in which a chunk gains a healthy replica |
| `InterleavedScan.InterleavedScansConverge` | internal/metadata/repair/manager.go:62-115 | over any series of such scans the closed form holds, although clients interleave and nodes may fail and return between scans |
| `ReplicaRows.StepGains` | internal/metadata/repair/manager.go:200-210 | over one step of any kind, the replicas of a chunk of an ever-committed file change only by the target of a recorded copy |
| `Repair.TargetByCounting` | internal/metadata/repair/manager.go:170-188 | a target exists if and only if fewer replicas are healthy than nodes are |
| `Repair.ScanDeficit` | internal/metadata/repair/manager.go:99-113 | a scan of one chunk lowers its deficit by one unless it is zero, and leaves the replica set alone exactly when it is zero |
| `Repair.Manager.RepairChunk` | internal/metadata/repair/manager.go:117-227 | an attempt is made exactly if a listed replica is healthy and a healthy node is not listed; it makes exactly one RPC, sent to the current address of such a free node and naming the current address of the first healthy listed node, and records the free node only if that RPC succeeded; errors change no table and each counter moves as described; with current locations only the copy can fail |
| `Repair.Manager.ScanOnce` | internal/metadata/repair/manager.go:62-115 | every chunk of a committed file below R with a healthy replica and a free healthy node gains exactly one replica unless its attempt failed, all other chunks gain none, and rows added equal successes |
| `Repair.Manager.HealthyReplicas` | internal/metadata/repair/manager.go:123-153 | exactly the listed nodes that are healthy are gathered, in the order listed, each with its current row |
| `Repair.Manager.CountHealthy` | internal/metadata/repair/manager.go:83-97 | the count is the number of different listed nodes that are healthy |
| `Manifest.Manager.PrepareUpload` | internal/metadata/manifest/manifest.go:40-121 | it succeeds exactly on a chunk count that can be allocated, enough healthy nodes and unused IDs, then writes file, session and planned chunks and returns R different healthy nodes for exactly the planned chunks; otherwise the tables are unchanged |
| `Manifest.Manager.StoreUpload` | internal/metadata/manifest/manifest.go:88-118 | on whatever tables the transaction finds, it applies all its inserts or, on the first failing one, leaves every table unchanged |
| `Manifest.Manager.CommitUpload` | internal/metadata/manifest/manifest.go:171-282 | whatever the iteration order: an unknown, aborted or file-less session and a deleted file are refused with their errors; a finished session or committed file succeeds without a write; for a preparing session of a pending file success is exactly a map of all its chunks to at least R different non-empty IDs with no row yet, and then the file is committed, the session finished and exactly the map's rows are added; every error leaves all tables unchanged |
| `Manifest.Manager.DeleteFile` | internal/metadata/manifest/manifest.go:139-150 | run alone, an unknown file is an error that changes nothing; a known one is deleted afterwards, with its name and size, and nothing else changes |
| `FileDeletion.DeletedForGood` | internal/metadata/manifest/manifest.go:139-150 | after the second statement of a delete the file is deleted in every later state, its chunks are no longer scanned, and an unfinished session of it can never be committed |
| `RequestEffects.DeleteTakesEffect` | internal/metadata/manifest/manifest.go:139-150 | whenever the file is known both statements can run, and leave exactly that file deleted |
| `RequestEffects.PrepareTakesEffect` | internal/metadata/manifest/manifest.go:53-120 | whenever IDs are unused, enough nodes are healthy and the size can be planned, listing and transaction can run, and add one pending file, one preparing session and the chunks |
| `RequestEffects.CommitTakesEffect` | internal/metadata/manifest/manifest.go:188-280 | a commit of a preparing session of a pending file writes exactly on a right map, and then exactly those rows and statuses |
| `RequestEffects.HeartbeatTakesEffect` | internal/metadata/store/sqlite.go:490-537 | a heartbeat of a known or new node that reads its clock and then waits stores the second it read, the address, and healthy |
| `RequestEffects.RestartTakesEffect` | internal/metadata/store/sqlite.go:30-63 | a restart keeps tables and disks and loses requests, monitor pass and scan |
| `RequestEffects.UploadTakesEffect` | internal/storage/chunkstore/store.go:110-204 | up to 16 MiB put at a node without the chunk can be read there, and no other chunk or node changes |
| `RequestEffects.RemovalTakesEffect` | internal/storage/chunkstore/store.go:283-312 | a chunk deleted at a node is not found there, and no other chunk or node changes |
| `FileLifecycle.CommitMeaning` | internal/metadata/manifest/manifest.go:214-280 | the demands and writes of a commit in terms of the tables alone |
| `Manifest.PlanMeaning` | internal/metadata/manifest/manifest.go:53-73 | an upload that can be planned stores exactly size divided by chunk size, rounded up, chunks under the generated IDs, numbered from 0, all full but the last, which has the rest |
| `Manifest.CollectLocations` | internal/metadata/manifest/manifest.go:239-263 | for any iteration order the loops pass exactly if every key is a chunk of the file with at least R non-empty IDs, and otherwise name a bad entry and what is wrong with it; the rows are exactly the map's pairs and repeat exactly if some list does |
| `Manifest.InsertionDecides` | internal/metadata/manifest/manifest.go:265-268 | after the checks, the insert succeeds exactly if the map covers the file without repeated nodes and none of its rows exists |
| `Manifest.KeysCovered` | internal/metadata/manifest/manifest.go:228-237 | as many keys as chunks, all of them chunks of the file, means that no chunk is missing |
| `Manifest.ListingCount` | internal/metadata/manifest/manifest.go:214-226 | the number of rows read is the number of the file's chunks |
| `FileLifecycle.PrepareExact` | internal/metadata/manifest/manifest.go:88-114 | with sound foreign keys the transaction fails only on an ID already used or used twice, and otherwise adds exactly one pending file, its numbered chunks and one preparing session |
| `FileLifecycle.CommitExact` | internal/metadata/manifest/manifest.go:223-268 | if the file's chunks have no rows, committing succeeds exactly on a map that covers the file |
| `FileLifecycle.TaggedAppend` | internal/metadata/store/schema.go:29-34 | adding one chunk's rows keeps rows distinct exactly if its node list has no repetition |
| `ChunkPlan.PlanChunks` | internal/metadata/manifest/manifest.go:53-73 | it panics exactly on a negative count or one beyond the longest slice the runtime can allocate; otherwise the loop yields the planned rows in order |
| `ChunkPlan.PlanPartitionsExactly` | internal/metadata/manifest/manifest.go:53-65 | positive full-sized chunks, at most the last one shorter, summing to the file size, if and only if the size is between 0 and 2^63 minus the chunk size |
| `ChunkPlan.CountExact` | internal/metadata/manifest/manifest.go:53 | for every pair of 64-bit values the count is the wrapped sum divided by the chunk size, truncated toward zero |
| `ControlPlanePlans.ChunkCovers` | internal/metadata/store/queries.go:48-53 | in every reachable state chunk k of a file covers the bytes from k chunk sizes on: a whole chunk of them, or the rest for the last one |
| `ChunkPlan.OverflowCount` | internal/metadata/manifest/manifest.go:53-54 | for every other size the wrapped count is zero or negative |
| `ChunkPlan.SplitJoin` | internal/metadata/manifest/manifest.go:56-73 | cutting content along any partition gives pieces of the planned sizes that join back to it |
| `ChunkPlan.ListingIsRows` | internal/metadata/store/sqlite.go:197-215 | reading in index order returns the stored rows in the order in which they were planned |
| `ChunkPlan.StoredPlanRoundTrip` | internal/metadata/store/queries.go:48-53 | planned, stored and read back, the chunks partition the file and split and join is the identity |
| `Placement.Engine.SelectReplicas` | internal/metadata/placement/placement.go:32-69 | it fails exactly if R is not positive or exceeds the nodes given; for every shuffle each chunk gets exactly R different given nodes, under exactly the chunk IDs, and the input stays as it was |
| `Placement.Shuffle` | internal/metadata/placement/placement.go:54-57 | any sequence of swaps permutes the slice and keeps node IDs distinct |
| `Placement.SelectionDrawn` | internal/metadata/placement/placement.go:59-63 | the first entries of a permuted slice are different nodes of the original |
| `Tables.InsertLocationRowsExact` | internal/metadata/store/sqlite.go:257-265 | the insert loop succeeds exactly on distinct new rows for known chunks, and then adds exactly those |
| `Tables.InsertChunkRowsExact` | internal/metadata/store/sqlite.go:186-194 | the insert loop succeeds exactly if IDs and file-index pairs are new and distinct and the files exist, and then adds exactly those rows |
| `Tables.LocationPrefixFails` | internal/metadata/store/sqlite.go:257-265 | once a row fails, every longer sequence of inserts fails |
| `SqliteStore.Store.InsertChunkLocations` | internal/metadata/store/sqlite.go:257-265 | either all rows are inserted, or an error leaves exactly a prefix of them inserted |
| `SqliteStore.Store.AddChunkLocation` | internal/metadata/store/sqlite.go:287-300 | a duplicate or a row for an unknown chunk is an error that changes nothing; otherwise exactly that row is added |
| `SqliteStore.Store.UpsertNodeHeartbeat` | internal/metadata/store/sqlite.go:490-537 | the update of a known node, or else the insert of a new one, leaves that node's row as sent, healthy and stamped |
| `SqliteStore.Store.GetChunksByFileID` | internal/metadata/store/sqlite.go:197-215 | exactly the file's chunk rows, in increasing index order |
| `SqliteStore.Store.ListCommittedChunks` | internal/metadata/store/sqlite.go:237-255 | every chunk whose file is committed exactly once, and nothing else |
| `SqliteStore.Store.GetChunkLocations` | internal/metadata/store/sqlite.go:268-286 | every node with a row for the chunk exactly once |
| `SqliteStore.Store.ListHealthyNodes` | internal/metadata/store/sqlite.go:330-354 | every healthy node's row exactly once |
| `Registry.Manager.Heartbeat` | internal/metadata/registry/registry.go:54-66 | it fails exactly on an empty ID; otherwise the node is healthy with the whole second of now, and no other row changes |
| `Registry.Manager.IsNodeHealthy` | internal/metadata/registry/registry.go:74-91 | the search finds a node exactly if it is healthy in the tables |
| `Registry.Manager.MonitorOnce` | internal/metadata/registry/registry.go:110-131 | run alone, from any statuses, exactly the nodes no older than the timeout end healthy, and nothing else changes |
| `DiskStore.VerifiedReader.Read` | internal/storage/chunkstore/store.go:255-275 | the bytes hashed are always the payload prefix handed out; a buffer with room gets more data exactly while there is some, and otherwise the end on an intact file or a mismatch on a damaged one |
| `DiskStore.VerifiedReader.ReadSizes` | internal/storage/chunkstore/store.go:255-275 | for any buffer sizes, what was received is a prefix of the payload, and all of it when the end is reported; with more buffers with room than payload bytes the end is reached, as success exactly on an intact file |
| `DiskStore.VerifiedReader.ReadAll` | cmd/storaged/server.go:79-83 | for any choice of buffers, reading to the end returns the whole payload if length and hash match the header, and an integrity error otherwise |
| `DiskStore.DiskStore.constructor` | internal/storage/chunkstore/store.go:45-66 | opening keeps the files found and sets the counter to their total size |
| `DiskStore.ScanUsedBytes` | internal/storage/chunkstore/store.go:69-83 | a walk in any order computes the total size of all files |
| `DiskStore.DiskStore.Put` | internal/storage/chunkstore/store.go:110-204 | an ID without a file takes up to 16 MiB: its file is then 32 bytes of checksum, 8 of length and the data, the data reads back and the counter rises by 40 plus its length; an ID with a file changes nothing and succeeds exactly on a matching 40-byte header, a short one included among the violations; other IDs read as before; the exact sequence of directory trees between file-system calls; the counter keeps agreeing with a scan |
| `ChunkFile.PutPresent` | internal/storage/chunkstore/store.go:132-147 | put on an existing file never changes it, and which of the three answers it gives |
| `ChunkFile.TempBeside` | internal/storage/chunkstore/store.go:154 | the temporary file is in the directory of the chunk's file |
| `DiskStore.TraceCrashes` | internal/storage/chunkstore/store.go:149-201 | stopping a Put after any step leaves one of those three kinds of tree |
| `DiskStore.DiskStore.GetAll` | internal/storage/chunkstore/store.go:207-275 | not-found exactly without a file; data exactly if the file is its checksum, its 8-byte length and the data; otherwise an integrity error |
| `DiskStore.DiskStore.Delete` | internal/storage/chunkstore/store.go:283-312 | the chunk is not found afterwards, an absent one is no error, other IDs read as before, and the counter keeps agreeing with a scan |
| `ChunkFile.BigEndianDecodes` | internal/storage/chunkstore/store.go:166-169 | a length that fits its bytes is decoded to what was encoded |
| `ChunkFile.BigEndianAt` | internal/storage/chunkstore/store.go:166-169 | each byte of the encoding is the digit of its place, the most significant first |
| `ChunkFile.TotalMeaning` | internal/storage/chunkstore/store.go:69-83 | an empty tree totals nothing, and one file its own length |
| `ChunkFile.BigEndianEncodes` | internal/storage/chunkstore/store.go:234 | every byte string is the encoding of what it decodes to |
| `ChunkFile.IntactIffEncoded` | internal/storage/chunkstore/store.go:159-180 | a file verifies and carries given data if and only if it is the encoding of that data |
| `ChunkFile.PathInjective` | internal/storage/chunkstore/store.go:100-107 | sharding sends no two IDs to one path |
| `ChunkFile.TempIsNoChunk` | internal/storage/chunkstore/store.go:154 | no temporary name is the path of a plain ID |
| `WriteOnceMap.RunRefines` | internal/storage/chunkstore/store.go:110-312 | any serialized run of Put, Get and Delete on plain IDs answers exactly as a write-once map does, stray files notwithstanding, if the finitely many payloads involved do not collide |
| `WriteOnceMap.PutPresentExact` | internal/storage/chunkstore/store.go:132-147 | Put on a present chunk changes nothing and succeeds if and only if length and digest match, with no assumption on the hash |
| `WriteOnceMap.PutThenGet` | internal/storage/chunkstore/store.go:110-275 | what was put into an absent chunk is what Get returns |
| `WriteOnceMap.CrashAtomic` | internal/storage/chunkstore/store.go:149-201 | after a crash in a Put, either every plain ID reads as before it or every one reads as after it |
| `WriteOnceMap.StrayIsInvisible` | internal/storage/chunkstore/store.go:154-193 | a leftover temporary file changes no reply of any later run |
| `WriteOnceMap.CrashAndReopen` | internal/storage/chunkstore/store.go:45-66 | reopening after a crash gives those contents and a counter equal to the scan |
| `ByteAccounting.Accounting` | internal/storage/chunkstore/store.go:193-201 | in every concurrent run without any exclusion, counter plus outstanding amounts equals the visible bytes plus the drift of overwritten and resized files |
| `ByteAccounting.ExclusiveAccounting` | internal/storage/chunkstore/store.go:193-309 | with per-ID exclusion there is no drift, concurrent Deletes allowed, and at quiescence the counter equals a fresh scan |
| `ByteAccounting.QuiescentExact` | internal/storage/chunkstore/store.go:69-83 | at quiescence the counter equals a scan if and only if nothing drifted |
| `ByteAccounting.CalmRunsAreExact` | internal/storage/chunkstore/store.go:193-309 | as long as no rename lands on an existing file and no unlink removes a file whose size changed since the stat, the counter is exact up to outstanding amounts, and equals a scan at quiescence |
| `ByteAccounting.ReadersSeeWholeChunks` | internal/storage/chunkstore/store.go:149-201 | in every state of every concurrent run, hence for concurrent readers and for a crash with any calls in flight, a plain ID reads as it did at first, not at all, or as exactly the data of some Put of it |
| `ConcurrentReads.StepIsAtomic` | internal/storage/chunkstore/store.go:132-309 | in every concurrent run, without exclusion, a step changes what plain IDs hold exactly as one whole Put, overwriting rename or Delete would, or not at all |
| `ConcurrentReads.ReadAfterStep` | internal/storage/chunkstore/store.go:193-309 | a plain ID's content changes only in the step that unlinks it, to absent, or renames onto it, to the data of that Put |
| `ConcurrentReads.ReadsStayUntilUnlinked` | internal/storage/chunkstore/store.go:132-193 | with per-ID exclusion a readable ID reads the same until it is unlinked |
| `ConcurrentReads.ConcurrentRunRefines` | internal/storage/chunkstore/store.go:110-312 | with per-ID exclusion and no collision among the payloads involved, the plain files are at all times those of a write-once map after the operations that took effect so far |
| `ConcurrentReads.OverlappingPutsOverwrite` | internal/storage/chunkstore/store.go:132-193 | for every plain ID and any two payloads, a run of Puts alone in which the ID reads as the one and later as the other |
| `ByteAccounting.OverlappingDeletesCountOnce` | internal/storage/chunkstore/store.go:283-312 | for every plain ID and payload, a run in which two overlapping Deletes remove the chunk once and count it once |
| `ByteAccounting.OverlappingPutsMiscount` | internal/storage/chunkstore/store.go:132-201 | for every plain ID and payload, a run with two overlapping Puts leaves the counter too high by the size of the file |
| `CopyChunk.NodeServer.CopyChunk` | cmd/storaged/node_server.go:31-91 | the result and the target's directory are those of a verified fetch followed by a local Put, and the target's counter keeps agreeing with a scan |
| `CopyChunk.CopyExact` | cmd/storaged/node_server.go:78-90 | no other chunk reads differently after a copy, and a failed copy changes nothing; unless the target's chunk was damaged, a copy succeeds exactly if the source yields at most 16 MiB that agree in length and digest with what the target had, if anything, and then the target reads as it did before, or as the source if it had nothing |
| `CopyChunk.CopyAgreesExactly` | cmd/storaged/node_server.go:85-90 | after a successful copy the target reads as the source if and only if it had no file, or an intact one whose payload does not collide with the source's; no assumption on the hash |
| `CopyChunk.CorruptTargetPasses` | internal/storage/chunkstore/store.go:132-143 | every payload that differs in length or digest from its header is reported as a success under a matching header, and stays unreadable |
| `CopyChunk.CorruptTargetExists` | internal/storage/chunkstore/store.go:132-143 | for every hash, ID and payload there is such a target |
| `CopyChunk.DifferentTargetRejects` | internal/storage/chunkstore/store.go:145-146 | a target already serving other bytes, not colliding with the source's, rejects the copy and goes on serving them |
| `Digests.EveryHashCollides` | internal/storage/chunkstore/store.go:129 | every function to 32 bytes has two payloads with one digest |
| `Digests.SeparatingHashExists` | internal/storage/chunkstore/store.go:129 | any set of at most 256^32 payloads is told apart by some hash |

## Left out

- File listing, registration of nodes by hand, `UpdateNodeHeartbeat`, the counting queries and creation times: they add only easy members.
- Capacity and availability columns and the capacity figure: nothing reads them to decide anything, and `Put` enforces no bound.
- gRPC, TLS, JWT, Prometheus, logging, configuration, process start and shutdown: plumbing over libraries.
- The empty-name check of the RPC layer; of its guards only the positive file size is kept.
- Context cancellation, disk errors other than a crash, directory creation and fsync, `Exists` and `Close`.
- Restarts of storage nodes as a step of the machine; `WriteOnceMap` and `ByteAccounting` cover their crashes.
- The 64-bit width of `usedBytes`; the counter is an unbounded integer.
- `New`'s error for an empty directory name, and the `chunks` directory it works in; the model starts with that directory.
- The RPC's error texts; errors are values naming the failed check.
- `DiskStore.DiskStore.AvailableBytes`: a plain subtraction, modelled without a contract of its own.
- `Repair.Manager.RequestCopy`: succeeds or fails freely; the copy itself is in `CopyChunk` and in the transfer steps of `ControlPlane`.
- `Repair.ScansConverge`: fixed healthy nodes and scans without failures, as in the closed form; `InterleavedScan.InterleavedScansConverge` carries it over to interleaved scans, `Repair.Manager.ScanOnce` covers failures of a scan run alone.
- `Manifest.Manager.PrepareUpload`: lists nodes and writes without interruption here; `Manifest.Manager.StoreUpload` states the writes on arbitrary tables, and the state machine lets other steps come between.
- `ReplicaAgreement.AgreementOverRun`: nothing is said of the chunk's replicas before they first agree, which is up to the client's own uploads.
