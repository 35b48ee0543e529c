# Viperblock in Dafny

Viperblock is a log-structured virtual disk. A guest write goes to a memory
buffer, from there to a write-ahead log (WAL), and from the WAL into immutable
chunk objects on a backend, with a block-to-object map on top. This project
models that machine and proves what it promises.

`dafny verify dfyconfig.toml` checks everything. One module per file:

| file | what it holds |
|---|---|
| Bytes, Sorting | big-endian integers, linear byte positions, sorting |
| Extents, BlocksToObject | coalesced runs, fracture, reference counts, the block-to-object map |
| BlockStore, PersistRace | the unified block store and the three-pass persist as an interleaving machine |
| Sealing, Blocks, Wal, Chunks, Checkpoint | sealed or plain payloads, consolidation, the WAL, chunk and checkpoint formats |
| ReadPath, FlatDisk | merged backend reads and the flat byte array the volume refines |
| VolumeState, Durability, Provenance | the invariants of a volume: what memory and backend hold, what is left on disk, where records come from |
| Drain, Volume, Session | a drain, the volume class, whole runs |
| ShardedFlush | flushing into sixteen logs at once |
| Replay, Recovery | the stale-drain guard over a replay, recovery of WAL files |
| Takeover, Restart | the state a new process takes over after a crash at any moment |
| Rmw, SeqReserve | concurrent sub-block writers, SeqNum reservation across crashes |
| Gc, SnapHandshake | chunk collection across lifetimes and against a second process |
| Snapshot, Generations | snapshots of clones and their flat inherited section, clones of clones |
| Crypto, ChunkKey, SimpleFs | nonces and associated data, chunk key names, the toy file system |

## Main results

- **The volume is a flat array of bytes.** For every run of reads, writes,
  flushes, consolidations, checkpoints, drains, sweeps and clean reopens, in any
  order, with uploads finishing in any order and any of them failing, each byte
  read is the one the last write to reach it put there, and an acknowledged write
  is whole (`Session.Serve`). So a read inside an acknowledged write, with none in
  between, returns that write's own bytes (`Session.ReadsOwnWrite`).
- **Persisting races with rewriting.** With the passes of a persist interleaved
  with writes, flushes and readers, every block resolves at every step to the last
  write of the run (`PersistRace.EveryBlockResolvesToNewest`). Left alone, the
  passes do what the method does (`PersistRace.PersistAlone`).
- **No lost update, no reused SeqNum, no dangling chunk.** `Rmw.NoLostUpdate`
  holds over all runs of its machine. `SeqReserve.IssuedOnce` with
  `SeqReserve.NoncesDistinct`, `Gc.Closure` and
  `SnapHandshake.SnapshotsKeepTheirChunks` hold over all runs that keep to a
  stated order of saves, and lemmas beside them show what breaks otherwise. They
  speak of the steps taken: what writers arrived with, which ranges were asked
  for, which live checkpoint a snapshot's process had read.
- **Readers accept exactly what writers write.** A log file gives up the longest
  run of whole records at its front, and a sealed one all its records or none
  (`Wal.FileExact`, `Recovery.RecoveredExact`). A checkpoint loads if and only if
  it is a header and encoded records (`Checkpoint.WalkExact`), a snapshot opens if
  and only if its sections are encodings and its distinct blocks are as many as
  its count (`Snapshot.OpenedExact`), and one that lost any of its end never opens
  (`Snapshot.CutNeverOpens`).
- **A crash at any moment.** The volume stops in any state of any run, also
  between rotating a segment and saving the checkpoint, with the open log file
  cut at any byte, encrypted or not. The next process loads the live checkpoint,
  however old, and replays what is left. It is a valid volume again if and only if
  its saved SeqNum is high enough and the replay loses nothing: every run the
  stale-drain guard rejects holds only blocks the map has already, and every run
  it accepts none the map has newer. Then each block whose newest write is on disk
  reads as before, and every other one as an older write of its own or as zeros
  (`Restart.RestartAfterCrash`). A guest served from there on sees a flat array of
  bytes again (`Session.ServeAfterCrash`). With the open file whole, only buffered
  writes and writes a failed flush dropped are not on disk
  (`Takeover.FlushedSurvives`).
- **Clones of clones.** Generation after generation writes its own map, is
  snapshotted, and is cloned from the bytes of that snapshot. This succeeds if and
  only if every count and name on the way fits its field, and a clone of the last
  one resolves every block to the topmost generation that wrote it
  (`Generations.CloneChain`).

## Where the code falls short of a property

The model follows the code. Each case has a concrete or general counterexample
and its exact condition or, for a property of whole runs, an order of steps under
which it holds.

- A volume size that is not a multiple of the block size leaves a short last
  block. Every write that touches it fails, because the read-modify-write reads
  the whole block (`Volume.VB.WriteAt`, `Volume.ShortLastBlock`).
- The stale-drain guard decides a whole run from its first block and the first
  block of the covering run. Drained WAL files stay on disk, so a crash replays
  them together with newer records, and a run that starts with a drained block
  can take a new one down with it (`Recovery.RetainedSegmentLosesNeighbour`).
  `Replay.ReplayExact` says exactly when a replay loses nothing. If the
  checkpoint was saved with nothing stranded, it is enough that no new block
  directly follows a drained one (`Replay.InOrderLeans`).
- A counter restored too low also makes the guard discard fresh writes
  (`Recovery.ReopenedCounter`). A reopened volume reads the same in any case, but
  its invariant holds if and only if the saved SeqNum is not behind the map
  (`Volume.VB.Reload`).
- A partial flush drops later records of a block that has an earlier record
  flushed (`VolumeState.FlushConserves`).
- A sharded flush stops shard by shard. What it logged is older than what it left
  if and only if no shard logged a record behind one that another shard left
  (`ShardedFlush.FlushInOrder`). Otherwise the guard can reject the one left
  (`ShardedFlush.LateRecordRejected`).
- Run lengths saturate at 65535 on reload (`Checkpoint.CoalesceBlockLookup`).
- A state save reads the high-water first and writes it later. One that spans a
  reservation, or falls between another caller's persist and publish, writes the
  old high-water back (`SeqReserve.StaleSaveUncovers`,
  `SeqReserve.DisorderlySaveUncovers`, `SeqReserve.DisorderlySaveReissues`).
- Recovery removes the log files even if the live checkpoint could not be saved. A
  further crash then keeps every block if and only if the old checkpoint had them
  all (`Restart.FinishRecovery`).
- A comment at close calls a failed live checkpoint harmless. The next open
  still prefers the stale live checkpoint over the newer numbered one
  (`Gc.StaleLiveWins`); it has the closed map exactly when the live checkpoint is
  missing or up to date (`Gc.CloseKeepsMap`).
- A comment says the GC floor protects the fallback checkpoint. It does, over
  all lifetimes, if each numbered checkpoint follows directly on the
  configuration that names it and a process that wrote one sweeps no more
  (`Gc.Closure`). A fallback exists as long as the process that wrote it has not
  saved its configuration again (`Gc.FallbackExact`). Recovery writes one and goes
  on, and the floor is then read from the next, absent number
  (`Gc.RecoveryUnguardsFallback`). Close writes one even if the configuration could
  not be saved (`Gc.UnsavedConfigReusesId`).
- A snapshot in flight across the sweeper's baseline and scan, a drain between
  checkpoint and candidate selection, or a snapshot of a map that was loaded
  before the marker was written defeats the handshake
  (`SnapHandshake.InFlightSnapshotLoses`, `SnapHandshake.DisturbedSweepLoses`,
  `SnapHandshake.EarlyReadLoses`).
- A write that arrives late is compared only with the entry in memory, never
  with the uploaded block it hides (`BlockStore.LateWriteKeepsNewest`).
- Creating a volume keeps the old files' block lists
  (`SimpleFs.SimpleFS.CreateVolume`). A failed overwrite has already given up
  the old file (`SimpleFs.SimpleFS.CreateFile`).

One comment only misnames what the code does: the newer of two state files is
chosen by generation counter, not by SeqNum, and so it is in `SeqReserve`.

## What stands for the outside world

CRC32 and AES-GCM are function-valued parameters. Of CRC32 nothing but its range
is assumed, of AES-GCM that opening undoes sealing and that a seal adds a 16-byte
tag. Clocks, backend failures, the order in which maps are iterated and the order
in which workers finish are parameters or arbitrary choices. A geometry is
admissible (`Chunks.Geometry.Ok`) when a full chunk holds at most 65535 blocks
and its offsets fit 32 bits.

## Model

| member | source | states |
|---|---|---|
| `Session.Serve` | viperblock/viperblock.go:1779-1885 | over every run of guest and background operations every guest operation is answered in order, each byte read is the one the last write to reach it put there, acknowledged writes are complete, and a write is acknowledged unless it touches a short last block or SeqNums run out |
| `Session.ReadsOwnWrite` | viperblock/viperblock.go:1779-1885 | a read inside an acknowledged write, with no later write to those bytes in between, returns that write's own bytes |
| `Session.ReplayByte` | viperblock/viperblock.go:1941-1966 | byte by byte, the flat array after any events holds what the last write to reach the byte put there |
| `Session.Background` | viperblock/viperblock.go:2068-2110 | background work and reopens change no byte, and each does its part: a flush empties the buffer into the log, a forced consolidation the log, a calm drain memory, a calm sweep leaves only referenced chunks in range, a reopen has the saved map |
| `Session.ServeAfterCrash` | viperblock/viperblock.go:4141-4352 | after a crash at any moment and a recovery that leans the guest finds a flat array of bytes again, in which every block whose newest write was on disk is as it was, and the next run is served faithfully from it |
| `Volume.VB.constructor` | viperblock/viperblock.go:979-1107 | a new volume is valid and all zeros, also when its last block is short |
| `Volume.VB.WriteAt` | viperblock/viperblock.go:1779-1885 | exact errors; the written prefix has its own bytes on the disk and every other byte stays; inside the volume it succeeds if and only if the last block touched lies wholly inside the volume, as long as SeqNums last |
| `Volume.ShortLastBlock` | viperblock/viperblock.go:1791-1800 | every in-range write can succeed if and only if the size is a multiple of the block size |
| `Volume.VB.WriteOneBlock` | viperblock/viperblock.go:1913-1969 | one block's read, splice, reserve and publish, byte by byte; both failure causes, exactly |
| `Volume.VB.Rebuild` | viperblock/viperblock.go:1941-1949 | a partial write keeps the block's current bytes outside its own range, has its own bytes inside, and fails exactly when the volume ends inside the block |
| `Volume.VB.SeqLimitFits` | viperblock/crypto.go:38-38 | SeqNums go as far as the record's 64-bit field, on an encrypted volume as far as the 56 bits of a nonce |
| `Volume.VB.ReadAt` | viperblock/viperblock.go:5270-5304 | exact errors, the bytes of the disk for every range, the zero-block flag exactly when a touched block was never written, and the wrapping empty read at offset 0 |
| `Volume.VB.ReadBlocks` | viperblock/viperblock.go:5569-5696 | whole-block reads assemble memory, backend and zero blocks into the disk's bytes |
| `Volume.VB.Lookup` | viperblock/viperblock.go:5586-5666 | whatever the store answers leads to the block's newest bytes |
| `Volume.VB.Flush` | viperblock/viperblock.go:2113-2167 | the exact new log, buffer and entries after a complete or partial flush |
| `VolumeState.FlushConserves` | viperblock/viperblock.go:2141-2151 | a flush keeps every record on its way to a chunk if and only if no record past the failure shares its block with one before it |
| `ShardedFlush.FlushLockedSharded` | viperblock/viperblock.go:2172-2266 | each shard log gets the front of its group up to its first failed append, which together are the accepted records in buffer order; the buffer keeps exactly the records of untouched blocks |
| `ShardedFlush.FlushInOrder` | viperblock/viperblock.go:2196-2250 | everything logged is older than everything left if and only if no shard logged a record behind one that another shard left |
| `ShardedFlush.LateRecordRejected` | viperblock/viperblock.go:3260-3276 | a record left behind a newer neighbour is rejected by the guard once that neighbour is drained in one run with an older record of its block, whatever else the map holds |
| `Volume.VB.PublishRun` | viperblock/viperblock.go:3240-3302 | a run is published if and only if the stale-drain guard lets it, as an exact change of map, store and memory |
| `Volume.VB.PublishChunk` | viperblock/viperblock.go:3226-3304 | in an in-order drain the guard rejects none of the drain's own runs |
| `Volume.VB.CreateChunkFile` | viperblock/viperblock.go:3146-3304 | in an in-order drain: a fresh id per upload, used up even by a failure; the chunk holds exactly the packed blocks and all of them are published |
| `Volume.VB.UploadAll` | viperblock/viperblock.go:2603-2664 | for every completion order and every set of failures the volume keeps its content; it succeeds when every chunk is stored and ids suffice, and then leaves none of the segment behind |
| `Volume.VB.WriteWALToChunk` | viperblock/viperblock.go:2919-3130 | a segment is consolidated and rotated if and only if that is forced or its file has at least ObjBlockSize bytes; the file stays behind; a successful one strands nothing |
| `Volume.VB.SegmentBytes` | viperblock/viperblock.go:2943-2954 | the size compared is the length of the segment's file: its header and the encodings of its records |
| `Volume.VB.SaveLiveCheckpoint` | viperblock/viperblock.go:3957-3995 | skipped when clean; otherwise the checkpoint reads back as the map, or nothing changes |
| `Volume.VB.DrainToBackend` | viperblock/viperblock.go:2068-2110 | succeeds when nothing goes wrong; after a clean drain the live checkpoint is the map, with nothing stranded earlier no acknowledged write is in memory only, and all that was logged is in a rotated segment |
| `Volume.VB.DrainedAgree` | viperblock/viperblock.go:4438-4456 | with nothing in memory, block store and map give every block the same object, offset and SeqNum |
| `Volume.VB.DeleteChunkObjects` | viperblock/viperblock.go:3885-3899 | exactly the given chunks the backend does not refuse go; refused ones stay tracked |
| `Volume.VB.SweepChunks` | viperblock/viperblock.go:3826-3879 | swept chunks are unreferenced and between floor and watermark; every other chunk in that range that survives is referenced or was refused |
| `Volume.VB.RunGCSweep` | viperblock/viperblock.go:3904-3910 | nothing is swept unless the drain succeeded and the live checkpoint equals the map, nothing swept is in it, and afterwards every chunk in range is referenced or was refused |
| `Volume.VB.LoadLiveCheckpoint` | viperblock/viperblock.go:4004-4016 | the live checkpoint of a clean volume loads as its map, with the object counter past every referenced chunk |
| `Volume.VB.Reload` | viperblock/viperblock.go:3473-3548 | a new process on a drained volume holds the same content, even from a stale object counter, with exact reference counts; it is valid for later drains if and only if the saved SeqNum is not behind the map |
| `VolumeState.WriteCoherent` | viperblock/viperblock.go:1953-1966 | a write keeps the pipeline invariant |
| `VolumeState.FlushCoherent` | viperblock/viperblock.go:2113-2167 | so does a flush, complete or not |
| `VolumeState.RotateCoherent` | viperblock/viperblock.go:2966-2974 | so does rotating the WAL under its consolidated winners |
| `VolumeState.UploadCoherent` | viperblock/viperblock.go:3153-3187 | so does uploading a chunk under the next id |
| `VolumeState.PublishCoherent` | viperblock/viperblock.go:3229-3302 | so does publishing a run newer than what it replaces and older than the log |
| `VolumeState.SweepCoherent` | viperblock/viperblock.go:3845-3854 | so does deleting chunks outside a checkpointed map |
| `VolumeState.ReloadCoherent` | viperblock/viperblock.go:3473-3548 | so does a reload with counters above the map |
| `VolumeState.CoherentRunsFit` | viperblock/viperblock.go:692-737 | in every reachable map no run is long enough to saturate on reload |
| `Durability.WriteDurable` | viperblock/viperblock.go:1953-1966 | a write keeps the invariant of what is on disk: the history is in order, each newest write is in the log, the buffer or the live checkpoint unless a failed flush dropped it, and the checkpoint is older than all that follows it |
| `Durability.FlushDurable` | viperblock/viperblock.go:2113-2167 | so does a flush, complete or not |
| `Durability.RotateDurable` | viperblock/viperblock.go:2961-2974 | so does rotating a segment, whose file stays on disk |
| `Durability.PublishDurable` | viperblock/viperblock.go:3229-3302 | so does publishing a run of rotated records |
| `Durability.SaveDurable` | viperblock/viperblock.go:3957-3995 | so does saving the live checkpoint, also while another segment is stranded |
| `Durability.ReloadDurable` | viperblock/viperblock.go:3473-3548 | and a clean reopen, which starts with no log files |
| `Provenance.WriteRecorded` | viperblock/viperblock.go:1953-1966 | a write keeps the invariant of where records come from: each in log or chunk is the write its SeqNum was given to, and none in a chunk is newer than the map unless it is logged |
| `Provenance.UploadRecorded` | viperblock/viperblock.go:3153-3187 | so does uploading a chunk of rotated records |
| `Provenance.PublishRecorded` | viperblock/viperblock.go:3229-3302 | so does publishing a run newer than what it replaces |
| `Provenance.SaveRecorded` | viperblock/viperblock.go:3957-3995 | so does saving the live checkpoint |
| `Provenance.ReloadRecorded` | viperblock/viperblock.go:3473-3548 | and a clean reopen, where the checkpoint has caught up with every chunk |
| `VolumeState.ResolvesToLatest` | viperblock/blockstore.go:331-367 | in every coherent state a block resolves to its newest write, in memory or at a location that holds it |
| `Drain.PackChunks` | viperblock/viperblock.go:3101-3125 | the chunks are the slices of the sorted blocks at every multiple of the chunk length: none left out, closed as soon as full, never overfilled |
| `Drain.GuardPasses` | viperblock/viperblock.go:3260-3276 | when all else mapped is older than the segment the guard passes every unpublished block |
| `Drain.NextRun` | viperblock/viperblock.go:3229-3302 | the next run of a chunk is publishable and publishing it preserves the drain's progress |
| `Extents.TrimmedDenotes` | viperblock/viperblock.go:612-676 | the runs left after cutting a range out of all of them, given outright, are disjoint, clear in the range and unchanged outside it |
| `Extents.InsertedDenotes` | viperblock/viperblock.go:612-682 | so inserting a run is map override |
| `Extents.FractureDenotes` | viperblock/viperblock.go:634-676 | cutting a run back to head and tail changes no block outside the new range |
| `Extents.FractureCounts` | viperblock/viperblock.go:620-676 | and keeps every chunk's count equal to its number of live runs |
| `Extents.UnreferencedIsUnmapped` | viperblock/viperblock.go:3845-3854 | a zero count means no block maps into the chunk |
| `BlocksToObjectMap.BlocksToObject.ResolveBlockLookup` | viperblock/viperblock.go:589-605 | finds the covering run if and only if the block is mapped |
| `BlocksToObjectMap.BlocksToObject.InsertCoalesced` | viperblock/viperblock.go:612-682 | insertion is map override for every iteration order, the resulting runs do not depend on that order, and they are disjoint with exact counts |
| `BlocksToObjectMap.BlocksToObject.TrackAll` | viperblock/viperblock.go:3796-3820 | listing chunks tracks each without changing any count |
| `BlocksToObjectMap.BlocksToObject.Load` | viperblock/viperblock.go:3507-3517 | counts rebuilt from a loaded map are exact and positive |
| `BlockStore.UnifiedBlockStore.ReadEntry` | viperblock/blockstore.go:331-367 | memory first, then the covering extent, else missing |
| `BlockStore.UnifiedBlockStore.WriteWithSeqNum` | viperblock/blockstore.go:403-426 | replaces an entry exactly when the SeqNum is newer |
| `BlockStore.UnifiedBlockStore.MarkPending` | viperblock/blockstore.go:430-446 | moves exactly the hot entries to pending |
| `BlockStore.UnifiedBlockStore.FractureOverlaps` | viperblock/blockstore.go:203-244 | clears a range and keeps every other block's location |
| `BlockStore.UnifiedBlockStore.MarkPersistedRange` | viperblock/blockstore.go:490-564 | exactly the pending blocks with the very SeqNum that was uploaded leave memory for the extents, each at its own offset and SeqNum; mismatched lengths change nothing |
| `BlockStore.UnifiedBlockStore.SetPersistedRange` | viperblock/blockstore.go:596-620 | installs a loaded run as map override |
| `BlockStore.UnifiedBlockStore.Load` | viperblock/viperblock.go:3519-3529 | after loading all runs the store's locations are the map's |
| `BlockStore.LateWriteKeepsNewest` | viperblock/blockstore.go:403-426 | a late write keeps the block's newest SeqNum if and only if an entry is in memory or the write is not older than the uploaded block |
| `PersistRace.EveryBlockResolvesToNewest` | viperblock/blockstore.go:490-564 | under every interleaving of the passes with writes and flushes each block resolves to the last write the run made to it, in memory or at a location that holds it, and to nothing if there was none |
| `PersistRace.MissedReaderResolves` | viperblock/blockstore.go:331-367 | a reader that missed the shard and has not looked at the extents yet finds the block there, at a write no older than the last one when it missed |
| `PersistRace.PersistAlone` | viperblock/blockstore.go:490-564 | with nothing in between, the passes can run to their end and then have moved exactly what MarkPersistedRange moves |
| `Blocks.Consolidate` | viperblock/viperblock.go:3084-3099 | the ascending list of each block's newest record |
| `Blocks.NewestOrderFree` | viperblock/viperblock.go:2862-2872 | with distinct SeqNums the winners do not depend on record order |
| `Blocks.ConsolidateShards` | viperblock/viperblock.go:2849-2880 | consolidating 16 shard logs gives the very list that consolidating the single log gives |
| `Extents.LongestRun` | viperblock/viperblock.go:692-737 | the longest run is the largest 16-bit length |
| `Wal.BlockRoundTrip` | viperblock/viperblock.go:2310-2356 | a plain or sealed record decodes to the block it encodes |
| `Wal.BlockCanonical` | viperblock/viperblock.go:4063-4136 | decoding accepts exactly the encodings: a plain record with any other checksum, or a sealed one that does not open, is no record |
| `Wal.ReadWALFileForRecovery` | viperblock/viperblock.go:4021-4136 | in terms of the bytes: a file without this volume's header is refused for it; a plain one yields exactly the longest run of whole records at its front, a sealed one all its whole records or an error; with the highest SeqNum |
| `Wal.FileExact` | viperblock/viperblock.go:4021-4136 | what is read from a file is the given list if and only if the bytes are a header and hold that list |
| `Wal.PlainRecoversLongest` | viperblock/viperblock.go:4092-4136 | a plain log yields the given records if and only if it starts with them and no further record follows |
| `Wal.StartsWithLog` | viperblock/viperblock.go:2310-2356 | starting with records is starting with the bytes that encode them |
| `Wal.SealedRecoversAll` | viperblock/viperblock.go:4058-4090 | a sealed log yields the given records if and only if it starts with them and less than a record follows |
| `Wal.KindsApart` | viperblock/viperblock.go:4035-4040 | a sealed file is never read as a plain one, nor the other way round |
| `Wal.SealedKeepsAll` | viperblock/viperblock.go:4063-4090 | an accepted encrypted file has given up every whole record |
| `Wal.TornFileRecovers` | viperblock/viperblock.go:4060-4136 | a plain or sealed file cut at any byte after its header yields exactly the whole records before the cut |
| `Chunks.FullAt` | viperblock/viperblock.go:3101-3125 | filling a buffer by bytes closes a chunk exactly at the block count the geometry gives |
| `Chunks.RangeAt` | viperblock/viperblock.go:3168-3187 | piece k of a ranged read is the stored form of the block at that position |
| `Chunks.NeighboursAdjacent` | viperblock/viperblock.go:5700-5776 | consecutive blocks of one chunk always sit one stride apart |
| `Chunks.ChunkHeaderReads` | viperblock/viperblock.go:1098-1103 | a chunk starts with its signature, version and block size |
| `ReadPath.MagicExact` | viperblock/viperblock.go:4364-4389 | an encrypted volume reads from a chunk if and only if it carries the signature of encrypted chunks |
| `ReadPath.MagicMatches` | viperblock/viperblock.go:5205-5209 | every chunk the volume wrote does |
| `ReadPath.MergeEnd` | viperblock/viperblock.go:5700-5730 | joining requests on block number and object alone yields aligned positions |
| `ReadPath.FetchConsecutive` | viperblock/viperblock.go:5700-5776 | every merged read passes the signature check and returns, opened, the bytes of each requested block |
| `FlatDisk.WriteShows` | viperblock/viperblock.go:1941-1966 | publishing a rebuilt block stores the written bytes in the flat disk at their place and changes no other byte |
| `FlatDisk.SpliceStores` | viperblock/viperblock.go:1941-1949 | splicing has the patch's own bytes in its range and the old bytes outside |
| `Checkpoint.RecordRoundTrip` | viperblock/viperblock.go:2524-2562 | a 34-byte record decodes to what it encodes |
| `Checkpoint.RecordCanonical` | viperblock/viperblock.go:2543-2562 | no other bytes decode to the record |
| `Checkpoint.WalkEncoded` | viperblock/viperblock.go:3416-3457 | walking a written checkpoint yields its records in order |
| `Checkpoint.WalkExact` | viperblock/viperblock.go:3416-3457 | a checkpoint yields the given records if and only if it is a header of this version, written at any time, and their encodings |
| `Checkpoint.CollectExact` | viperblock/viperblock.go:3490-3517 | collected records are the named blocks, each with its last record, and nothing else |
| `Checkpoint.ExpandAll` | viperblock/viperblock.go:551-563 | expanding all runs in any order gives one fitting record per block and the map's meaning |
| `Checkpoint.Serialize` | viperblock/viperblock.go:3962-3972 | the written bytes read back as the map's meaning, one record of one block each, under the given header |
| `Checkpoint.CoalesceBlockLookup` | viperblock/viperblock.go:692-737 | merging records preserves every block if and only if no run is longer than 16 bits can express, and then no run could be longer |
| `Checkpoint.MaximalUnique` | viperblock/viperblock.go:692-737 | only one index of maximal runs means a given map, so what a checkpoint loads as is determined |
| `Checkpoint.LoadCheckpoint` | viperblock/viperblock.go:3473-3548 | loads exactly the walkable checkpoints, as maximal runs; the object counter never drops and ends past every referenced chunk |
| `Replay.AfterInside` | viperblock/viperblock.go:3226-3304 | after a replay a block of a run is in that run, or where it was if the guard rejected the run |
| `Replay.ReplayExact` | viperblock/viperblock.go:3260-3276 | a replay leaves every record at its block's newest write if and only if each rejected run holds only blocks the map has already and each accepted one none the map has newer; other blocks stay |
| `Replay.InOrderLeans` | viperblock/viperblock.go:4187-4233 | records that are drained or newer than the whole map come out right if no new block directly follows a drained one |
| `Recovery.RetainedSegmentLosesNeighbour` | viperblock/viperblock.go:4187-4233 | any two neighbouring records, the first drained under a run whose head is as new and the second new, lose the second when replayed together |
| `Recovery.ReopenedCounter` | viperblock/viperblock.go:4770-4775 | with a restored counter the next drained write takes effect if and only if no newer block heads the covering run |
| `Recovery.ReconcileObjectNum` | viperblock/viperblock.go:4237-4263 | new chunk ids collide with none referenced |
| `Recovery.ReplayChunk` | viperblock/viperblock.go:3226-3304 | whatever the map and the chunk, the map ends as the pure replay of the chunk's runs leaves it |
| `Recovery.ReplaySorted` | viperblock/viperblock.go:4265-4293 | replaying the sorted records chunk by chunk is the pure replay of all their runs under consecutive ids; it ends early exactly at a failed upload or when ids run out |
| `Recovery.RecoverLocalWALs` | viperblock/viperblock.go:4141-4352 | for any files, map and counter: the records are those the files' bytes hold; each ends at its block's newest write if and only if the records lean, in any case each is moved into a new chunk or its block stays, every other block stays, new ids are fresh, new chunks are sorted and hold the winners only, and the SeqNum counter ends at the highest; a damaged sealed file changes nothing |
| `Recovery.RecoveredExact` | viperblock/viperblock.go:4187-4204 | the records recovered are the given list if and only if the files hold it, one after the other, by their bytes |
| `Recovery.AllNewerLeans` | viperblock/viperblock.go:4217-4226 | records that are all newer than the map come out right |
| `Restart.DiskRecovers` | viperblock/viperblock.go:4187-4204 | rotated files come back whole, and of the open file cut at any byte the whole records before the cut |
| `Takeover.SettledInOrder` | viperblock/viperblock.go:3957-3995 | in every reachable state whose checkpoint was saved with nothing stranded, also in mid-drain, each surviving record is in the checkpoint or newer than all of it |
| `Takeover.SurvivorReached` | viperblock/viperblock.go:4187-4233 | a block whose newest write is in a surviving record or the checkpoint is at it after a replay that lost nothing |
| `Takeover.FlushedSurvives` | viperblock/viperblock.go:2113-2167 | with the open file whole every newest write but a buffered or dropped one is on disk |
| `Takeover.SavedBelowWinner` | viperblock/viperblock.go:3957-3995 | no checkpoint is ahead of the log it was drained from |
| `Takeover.RestartCoherent` | viperblock/viperblock.go:4141-4352 | the state after a recovery that loses nothing keeps the pipeline invariant, over old chunks and new ones |
| `Takeover.RestartDurable` | viperblock/viperblock.go:4141-4352 | and the invariant of what is on disk |
| `Takeover.RestartRecorded` | viperblock/viperblock.go:4141-4352 | and the invariant of where records come from |
| `Takeover.CoherentNewest` | viperblock/viperblock.go:3260-3276 | conversely, a coherent state means that the recovery lost nothing |
| `Takeover.SurvivorRestored` | viperblock/viperblock.go:4187-4233 | each block whose newest write is on disk is restored to exactly it |
| `Restart.RestartSound` | viperblock/viperblock.go:4141-4352 | the new process is in order if and only if its recovery lost nothing and its SeqNum is past the checkpoint |
| `Restart.SettledWillLean` | viperblock/viperblock.go:4187-4233 | a checkpoint saved with nothing stranded makes the recovery right unless a new block directly follows a drained one |
| `Restart.RestartAfterCrash` | viperblock/viperblock.go:4141-4352 | from any valid state: load the checkpoint, replay what is left, refill the store, set the counters; the result is a valid volume if and only if the records lean and the SeqNum is past the checkpoint; then every block whose newest write is on disk has it and reads as before, every other one has an older write of its own; they lean if the checkpoint was saved with nothing stranded and no new block directly follows a drained one |
| `Restart.FinishRecovery` | viperblock/viperblock.go:4321-4350 | saves the live checkpoint and removes the log files; saved, the volume is valid and clean; not saved, a further crash keeps every block if and only if the old checkpoint had them all |
| `Rmw.NoLostUpdate` | viperblock/viperblock.go:1821-1871 | under every interleaving each byte of a settled block is the one the last write over it, in SeqNum order, arrived with; finished writes are among them |
| `Rmw.ReaderSeesPrefix` | viperblock/viperblock.go:1913-1969 | a reader at any moment sees, byte by byte, all writes that took a SeqNum but at most the one being published |
| `Rmw.BufferInOrder` | viperblock/viperblock.go:1957-1961 | a block's buffered records are, byte by byte, the block after each write, in SeqNum order |
| `Rmw.HistoryIs` | viperblock/viperblock.go:1821-1871 | writers and patches of every state are what the steps so far made them |
| `Rmw.LockFree` | viperblock/viperblock.go:1903-1907 | a shard's lock is free if and only if no writer is inside its section |
| `Rmw.LoneWrite` | viperblock/viperblock.go:1913-1969 | a writer that finds its lock free and is not disturbed stores its bytes and gives the lock back |
| `SeqReserve.IssuedOnce` | viperblock/viperblock.go:4839-4897 | over all runs with failures, crashes, reloads and saves that sample and write apart, each SeqNum in a range that a caller asked for and was handed is within the durable high-water and handed out once, as long as no save writes an older high-water than the current one or falls between a persist and its publish |
| `SeqReserve.LedgerIs` | viperblock/viperblock.go:4839-4897 | the ranges handed out are those asked for, in the order the callers returned |
| `SeqReserve.CounterMoves` | viperblock/viperblock.go:4839-4846 | a reservation moves the counter past its range, and only a reload moves it otherwise |
| `SeqReserve.LoneReservation` | viperblock/viperblock.go:4839-4897 | a caller that finds the mutex free and is not disturbed gets the next SeqNums, with the high-water raised by the fewest whole windows |
| `SeqReserve.NoncesDistinct` | viperblock/crypto.go:38-58 | hence deterministic nonces are distinct, as section 8.2.1 of NIST SP 800-38D requires |
| `SeqReserve.LoadInv` | viperblock/viperblock.go:4814-4821 | a reload resumes above everything ever issued |
| `SeqReserve.ChosenNewest` | viperblock/viperblock.go:4724-4734 | of the local and the backend copy the newer is loaded, and on a tie the local one |
| `SeqReserve.BackendIs` | viperblock/viperblock.go:4620-4628 | the backend copy is the one pushed last |
| `SeqReserve.ReloadResumes` | viperblock/viperblock.go:4807-4821 | a successful reload starts at the newer copy's high-water with one window durably reserved |
| `SeqReserve.DisorderlySaveUncovers` | viperblock/viperblock.go:4473-4484 | any save between a persist and its publish leaves issued SeqNums above the durable high-water |
| `SeqReserve.StaleSaveUncovers` | viperblock/viperblock.go:4473-4484 | from any state with room below the high-water, saving any older one lets the next caller take SeqNums above the durable high-water |
| `SeqReserve.DisorderlySaveReissues` | viperblock/viperblock.go:4473-4484 | a concrete run in which a save that sampled before a reservation and wrote after it has SeqNum 1 issued twice |
| `Gc.NothingNeededGoes` | viperblock/viperblock.go:3826-3879 | in every run no step deletes a chunk that the map, the live checkpoint or the floor's checkpoint needs before or after it, and no upload takes the id of one the map or the live checkpoint points into |
| `Gc.Closure` | viperblock/viperblock.go:3581-3602 | over all lifetimes of a run with orderly saves and sweeps the map, the live checkpoint, the whole checkpoint the floor was read from and the fallback keep all their chunks, no upload takes the id of one, the fallback is the last numbered map as long as that is named, and a new process has the live map or else the fallback |
| `Gc.SweepReclaims` | viperblock/viperblock.go:3796-3879 | once a process has reconciled, an unrefused sweep leaves of the chunks between floor and counter exactly the mapped ones, and touches no other |
| `Gc.IdsCount` | viperblock/viperblock.go:3150-3153 | every attempt to upload uses up one id |
| `Gc.FallbackExact` | viperblock/viperblock.go:5344-5363 | in an orderly run the fallback is the last numbered map from its writing on until the process that wrote it saves its configuration again; otherwise there is none |
| `Gc.AlwaysEnabled` | viperblock/viperblock.go:3581-3602 | a new process can start and the floor can be read in every state |
| `Gc.StaleLiveWins` | viperblock/viperblock.go:5327-5341 | a concrete close whose newer numbered checkpoint is ignored |
| `Gc.RecoveryUnguardsFallback` | viperblock/viperblock.go:4321-4327 | any chunk of the map of any orderly open volume is lost to its fallback when recovery saves, the chunk is superseded and a sweep follows |
| `Gc.UnsavedConfigReusesId` | viperblock/viperblock.go:5346-5363 | from any orderly state a close that can save neither configuration nor live checkpoint makes the next process reuse the id of its fallback's newest chunk |
| `SnapHandshake.SnapshotsKeepTheirChunks` | viperblock/viperblock.go:3617-3764 | no interleaving of sweeps, map reads and snapshots deletes a chunk of a live checkpoint that a snapshot froze, of the map or of the live checkpoint, all taken from the steps of the run, as long as scans, selections and freezes keep their order |
| `SnapHandshake.FrozenForGood` | viperblock/snapshot.go:114-178 | from its freeze on a snapshot refers in every state to the live checkpoint as it stood when its process last read it before |
| `SnapHandshake.HistoryIs` | viperblock/viperblock.go:3617-3764 | map, live checkpoint, chunks, marker, baseline, sweep and snapshots of every state are what the steps so far made them |
| `SnapHandshake.MovedMarkerStops` | viperblock/viperblock.go:3740-3764 | a process that finds the marker moved neither selects nor deletes again |
| `SnapHandshake.InFlightSnapshotLoses` | viperblock/snapshot.go:114-178 | any snapshot in flight at baseline and scan can lose any of its chunks |
| `SnapHandshake.DisturbedSweepLoses` | viperblock/viperblock.go:3904-3910 | a drain between checkpoint and selection can cost the live checkpoint any of its chunks |
| `SnapHandshake.EarlyReadLoses` | viperblock/snapshot.go:114-162 | a snapshot of a map loaded before its marker was written can lose any chunk of that map |
| `Snapshot.BuildFlatSection` | viperblock/snapshot.go:475-553 | succeeds if and only if counts and names fit; the groups are the layers without what is covered above |
| `Snapshot.ParseFlatSection` | viperblock/snapshot.go:556-613 | the offset-advancing parser computes the section's meaning, errors included |
| `Snapshot.FlatRoundTrip` | viperblock/snapshot.go:475-613 | parsing a built section returns its sources |
| `Snapshot.FlatExact` | viperblock/snapshot.go:556-613 | parsing yields the given sources if and only if the section is their encoding; its version byte and what follows are free |
| `Snapshot.StrippedResolves` | viperblock/snapshot.go:488-520 | dropping covered entries changes no lookup |
| `Snapshot.CreateSnapshot` | viperblock/snapshot.go:147-178 | the written checkpoint opens as the volume's own blocks over the flattened layers, and no proper prefix of it opens |
| `Snapshot.OpenedOk` | viperblock/snapshot.go:257-395 | whatever bytes a snapshot is opened from, its layers are fit to be snapshotted again |
| `Snapshot.OpenedExact` | viperblock/snapshot.go:330-395 | a snapshot opens to the given blocks and layers if and only if, by its bytes, header and version match, the own section encodes records that say those blocks, as many distinct ones as a nonzero count, and the rest is a flat section that says those layers |
| `Snapshot.CutNeverOpens` | viperblock/snapshot.go:351-381 | a snapshot cut anywhere, also at a record boundary, does not open under its own count |
| `Snapshot.CloneResolves` | viperblock/snapshot.go:408-464 | a clone resolves every block to the same volume, object, offset and SeqNum as the frozen volume |
| `Generations.CloneChain` | viperblock/snapshot.go:114-464 | over any sequence of generations, each snapshotted and cloned from the bytes: succeeds if and only if every count and name fits, and the last clone resolves every block to the topmost generation that wrote it |
| `Crypto.NonceInjective` | viperblock/crypto.go:43-58 | nonces agree if and only if volume, domain and the low 56 bits of the SeqNum do |
| `Crypto.NonceCounter` | viperblock/crypto.go:43-58 | a nonce is the low 56 bits of the SeqNum, big-endian, then the volume, then the domain |
| `Crypto.NonceDeterminesSeqNum` | viperblock/crypto.go:38-58 | up to the 56-bit limit the whole SeqNum is determined, and past it nonces repeat |
| `Crypto.AADInjective` | viperblock/crypto.go:71-77 | block associated data determines volume, block and SeqNum |
| `Crypto.InitAAD` | viperblock/crypto.go:82-84 | writes the hash and leaves the rest of the buffer |
| `Crypto.UpdateAAD` | viperblock/crypto.go:88-91 | writes block and SeqNum and leaves the hash |
| `Crypto.ReuseAAD` | viperblock/viperblock.go:3168-3180 | one reused buffer gives every block the data a fresh one would |
| `Crypto.MetaAADInjective` | viperblock/crypto.go:97-104 | metadata associated data determines volume, tag and generation |
| `Crypto.MetaMeetsData` | viperblock/crypto.go:71-104 | metadata and block data coincide if and only if the tag spells the block number |
| `ChunkKey.KeyRoundTrip` | types/types.go:78-83 | every 64-bit id of every volume name comes back from its key |
| `ChunkKey.ParseExact` | viperblock/viperblock.go:3766-3785 | parsing yields an id if and only if the key ends in the pattern with digits of that 64-bit value |
| `ChunkKey.KeyInjective` | types/types.go:78-83 | keys agree if and only if volume and id do |
| `SimpleFs.Session` | simplefs/simplefs.go:41-167 | over any run, failed allocations included, free and used partition the blocks, files own the used ones exactly once, and file sizes and free count are those of a simple count of the operations |
| `SimpleFs.SimpleFS.CreateVolume` | simplefs/simplefs.go:41-62 | the result is consistent if and only if existing files hold no blocks |
| `SimpleFs.SimpleFS.AllocateBlocks` | simplefs/simplefs.go:83-107 | takes the front of the free list, or nothing when there are too few |
| `SimpleFs.SimpleFS.FreeBlocks` | simplefs/simplefs.go:110-123 | appends the blocks to the free list and drops them from the used set |
| `SimpleFs.GivePartition` | simplefs/simplefs.go:110-123 | giving blocks back keeps the partition if and only if they were used and are listed once |
| `SimpleFs.SimpleFS.CreateFile` | simplefs/simplefs.go:125-153 | succeeds exactly when enough blocks are free after releasing the old file, which a failure has already removed |
| `SimpleFs.SimpleFS.DeleteFile` | simplefs/simplefs.go:156-171 | returns exactly the file's blocks, or reports it missing |
| `SimpleFs.BlocksForCovers` | simplefs/simplefs.go:125-127 | the allocated blocks cover the file if and only if the 64-bit rounding does not wrap, and never by a whole block more |

## Left out

- Volume.VB.ReadAt: offset plus length is not reduced modulo 2^64, so requests that wrap are refused as out of range here.
- Volume.VB.WriteOneBlock: a refused reservation leaves the counter as it is; in the code an encrypted volume's counter has moved past its limit by then, where every further reservation is refused too, and a plain volume's 64-bit counter wraps to zero instead of being refused.
- Volume.VB.Flush: the single log only; the sharded flush is in `ShardedFlush`, outside the volume's runs.
- Volume.VB.CreateChunkFile: a 64-bit object counter that has run out is a failed upload here, not a wrap to zero.
- Recovery.ReplaySorted: the same as `Volume.VB.CreateChunkFile`.
- Volume.VB.LoadLiveCheckpoint: with no live checkpoint it starts empty; the numbered checkpoint to fall back to is modelled by its chunk ids, in `Gc`.
- Recovery.RecoverLocalWALs: what follows the replay is in `Restart.RestartAfterCrash` and `Restart.FinishRecovery`; the saving of state and numbered checkpoint, whose failure ends the recovery, is only in `Gc`.
- SeqReserve.IssuedOnce: assumes the local state file survives; with only a lagging backend copy SeqNums can be issued again.
- Restart.RestartAfterCrash: one log file is open at a time; the sharded log's 16 files are joined by `Blocks.ConsolidateShards` only for a drain.
- Gc.NothingNeededGoes: a sweep is one step here; `SnapHandshake` takes it apart.
- Snapshot.OpenedExact: a file that ends inside its own-blocks section is refused here; the code slices past the end, which stops it unless the buffer happens to be larger.
- Snapshot.CreateSnapshot: own blocks and flat section are taken from one state of the map, and block counts fit a 64-bit int.
- BlockStore.UnifiedBlockStore.MarkPersistedRange: the 16 shards are one map, since they only spread lock contention.
- The legacy read path, the LRU cache, `Cache`, `EvictCache`, `WriteBlockStore`, `FlushBlockStore`, `Flush2` and `ReadWAL`.
- `VB.Write` next to concurrent writers, since it takes no block lock.
- Backpressure, the backend-full latch, retries, timers and background goroutine control.
- S3 and file backends, the nbdkit plugin, command-line tools and telemetry.
- JSON state files and their sealed envelope, which are plain values here.
- Reads through base and ancestor maps at byte level; layer resolution is modelled instead.
- Growing a volume, resetting it and removing its local files.
