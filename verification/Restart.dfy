/** A crash of a running volume, and the process that takes over. */
module Restart {
  import opened Bytes
  import opened Extents
  import opened Sealing
  import opened Blocks
  import opened Chunks
  import opened FlatDisk
  import opened Checkpoint
  import opened ReadPath
  import opened Wal
  import opened VolumeState
  import opened Durability
  import opened Provenance
  import opened Replay
  import opened Recovery
  import opened Takeover
  import Volume

  // ----- What is on disk -----

  function Flatten(segments: seq<seq<Block>>): seq<Block>
  {
    if |segments| == 0 then [] else Flatten(segments[..|segments| - 1]) + segments[|segments| - 1]
  }

  /** The log file of a segment, cut at any byte. */
  ghost predicate IsCut(g: Geometry, c: Cipher, crc: Checksum, log: seq<Block>, timestamp: nat, cut: nat,
                        file: seq<byte>)
  {
    && g.version < Capacity(2) && g.blockSize < Capacity(4) && timestamp < Capacity(8) && Wal.AllFit(log, g.blockSize)
    && cut <= FILE_HEADER + |EncodeLog(c, crc, log, g.blockSize)|
    && file == (FileHeader(c, g.version, g.blockSize, timestamp) + EncodeLog(c, crc, log, g.blockSize))[..cut]
  }

  ghost predicate IsWhole(g: Geometry, c: Cipher, crc: Checksum, log: seq<Block>, timestamp: nat, file: seq<byte>)
  {
    IsCut(g, c, crc, log, timestamp, |file|, file) && |file| == FILE_HEADER + |EncodeLog(c, crc, log, g.blockSize)|
  }

  /** The records of a log file cut at a byte that end before the cut. */
  function Surviving(c: Cipher, log: seq<Block>, cut: nat, blockSize: nat): (s: seq<Block>)
    ensures s <= log
  {
    var n := if cut < FILE_HEADER then 0 else WholeBefore(cut - FILE_HEADER, RecordSize(c, blockSize));
    if n <= |log| then log[..n] else log
  }

  /** Rotated segments lie on disk whole, the open one cut anywhere. */
  ghost predicate OnDisk(g: Geometry, c: Cipher, crc: Checksum, segments: seq<seq<Block>>, open: seq<Block>,
                         stamps: seq<nat>, cut: nat, files: seq<seq<byte>>)
  {
    && |files| == |segments| + 1 == |stamps| && AllWhole(g, c, crc, segments, stamps, files[..|segments|])
    && IsCut(g, c, crc, open, stamps[|segments|], cut, files[|segments|])
  }

  lemma CutRecords(g: Geometry, c: Cipher, crc: Checksum, log: seq<Block>, timestamp: nat, cut: nat, file: seq<byte>)
    requires IsCut(g, c, crc, log, timestamp, cut, file) && c.Opens(g.blockSize)
    ensures YieldsAll(FileRecords(c, crc, file, g.version, g.blockSize), Surviving(c, log, cut, g.blockSize))
  {
    hide EncodeLog, FileHeader, Recovered, Cipher.Opens;
    if cut >= FILE_HEADER {
      TornFileRecovers(c, crc, g.version, g.blockSize, timestamp, log, cut);
    }
  }

  /** The file gives up these records, or has none and no header either. */
  ghost predicate YieldsAll(r: Result<seq<Block>>, records: seq<Block>)
  {
    r == Ok(records) || (r == Err("header") && records == [])
  }

  lemma RecoveredNext(c: Cipher, crc: Checksum, files: seq<seq<byte>>, version: nat, blockSize: nat, all: seq<Block>,
                      more: seq<Block>)
    requires |files| > 0 && AllRecovered(c, crc, files[..|files| - 1], version, blockSize) == Ok(all)
    requires YieldsAll(FileRecords(c, crc, files[|files| - 1], version, blockSize), more)
    ensures AllRecovered(c, crc, files, version, blockSize) == Ok(all + more)
  {
    assert all + [] == all;
  }

  ghost predicate AllWhole(g: Geometry, c: Cipher, crc: Checksum, segments: seq<seq<Block>>, stamps: seq<nat>,
                           files: seq<seq<byte>>)
  {
    && |files| == |segments| <= |stamps|
    && forall k :: 0 <= k < |segments| ==> IsWhole(g, c, crc, segments[k], stamps[k], files[k])
  }

  lemma {:induction false} WholeFilesRecover(g: Geometry, c: Cipher, crc: Checksum, segments: seq<seq<Block>>,
                                             stamps: seq<nat>, files: seq<seq<byte>>)
    requires AllWhole(g, c, crc, segments, stamps, files) && c.Opens(g.blockSize)
    ensures AllRecovered(c, crc, files, g.version, g.blockSize) == Ok(Flatten(segments))
  {
    hide IsCut, IsWhole, FileRecords, Cipher.Opens, EncodeLog;
    if |files| > 0 {
      var n := |files| - 1;
      WholeFileRecords(g, c, crc, segments[n], stamps[n], files[n]);
      WholeFilesRecover(g, c, crc, segments[..n], stamps, files[..n]);
      RecoveredNext(c, crc, files, g.version, g.blockSize, Flatten(segments[..n]), segments[n]);
    }
  }

  lemma WholeFileRecords(g: Geometry, c: Cipher, crc: Checksum, log: seq<Block>, timestamp: nat, file: seq<byte>)
    requires IsWhole(g, c, crc, log, timestamp, file) && c.Opens(g.blockSize)
    ensures FileRecords(c, crc, file, g.version, g.blockSize) == Ok(log)
  {
    hide EncodeLog, FileHeader, FileRecords, Cipher.Opens;
    TornFileRecovers(c, crc, g.version, g.blockSize, timestamp, log, |file|);
    LogLength(c, crc, log, g.blockSize);
    assert log[..|log|] == log;
  }

  /** All that a crash leaves of the log comes back: whole segments, then the open one up to the cut. */
  lemma DiskRecovers(g: Geometry, c: Cipher, crc: Checksum, segments: seq<seq<Block>>, open: seq<Block>,
                     stamps: seq<nat>, cut: nat, files: seq<seq<byte>>)
    requires OnDisk(g, c, crc, segments, open, stamps, cut, files) && c.Opens(g.blockSize)
    ensures AllRecovered(c, crc, files, g.version, g.blockSize)
            == Ok(Flatten(segments) + Surviving(c, open, cut, g.blockSize))
  {
    hide IsCut, FileRecords, Cipher.Opens, AllWhole;
    var n := |segments|;
    WholeFilesRecover(g, c, crc, segments, stamps, files[..n]);
    CutRecords(g, c, crc, open, stamps[n], cut, files[n]);
    RecoveredNext(c, crc, files, g.version, g.blockSize, Flatten(segments), Surviving(c, open, cut, g.blockSize));
  }

  // ----- What the new process starts from -----

  /** The index and the counter that loading a checkpoint of map d yields. There is only one of each. */
  ghost predicate IsLoaded(d: map<nat, Loc>, stride: nat, cfgObjectNum: nat, m: Index, start: nat)
  {
    WellFormed(m) && Denote(m, stride) == d && Maximal(m, d, stride) && NextFor(d, cfgObjectNum, start)
  }

  lemma LoadedUnique(d: map<nat, Loc>, stride: nat, cfgObjectNum: nat, m: Index, start: nat, m': Index, start': nat)
    requires IsLoaded(d, stride, cfgObjectNum, m, start) && IsLoaded(d, stride, cfgObjectNum, m', start')
    ensures m == m' && start == start'
  {
    hide WellFormed, Denote, Maximal;
    MaximalUnique(m, m', stride);
  }

  /** Recovery from a checkpoint of map d will do right by every surviving record. */
  ghost predicate WillLean(g: Geometry, d: map<nat, Loc>, cfgObjectNum: nat, all: seq<Block>)
  {
    forall m, start :: IsLoaded(d, g.Stride(), cfgObjectNum, m, start) ==> Leaning(g, m, start, all)
  }

  lemma WillLeanIs(g: Geometry, d: map<nat, Loc>, cfgObjectNum: nat, all: seq<Block>, m: Index, start: nat)
    requires IsLoaded(d, g.Stride(), cfgObjectNum, m, start)
    ensures WillLean(g, d, cfgObjectNum, all) <==> Leaning(g, m, start, all)
  {
    hide Leaning, WellFormed, Denote, Maximal, NextFor;
    forall m', start' | IsLoaded(d, g.Stride(), cfgObjectNum, m', start') ensures m' == m && start' == start {
      LoadedUnique(d, g.Stride(), cfgObjectNum, m, start, m', start');
    }
  }

  /** A checkpoint saved with nothing stranded makes it lean, unless a new block directly follows a drained one. */
  lemma SettledWillLean(g: Geometry, v: View, cfgObjectNum: nat, all: seq<Block>)
    requires Durable(v) && Left(v, all) && v.settled.Some? && NoNewNeighbour(SavedMap(v), Newest(all))
    ensures WillLean(g, SavedMap(v), cfgObjectNum, all)
  {
    hide HistoryOk, Origin, Kept, Published, SettledAt, Left, NoNewNeighbour, InOrder, Newest, WellFormed, Denote,
        Maximal, NextFor, Leaning;
    SettledInOrder(v, all);
    forall m, start | IsLoaded(SavedMap(v), g.Stride(), cfgObjectNum, m, start) ensures Leaning(g, m, start, all) {
      OrderlyLeaning(g, m, start, all);
    }
  }

  lemma OrderlyLeaning(g: Geometry, m: Index, objectNum: nat, all: seq<Block>)
    requires WellFormed(m) && InOrder(Denote(m, g.Stride()), Newest(all))
    requires NoNewNeighbour(Denote(m, g.Stride()), Newest(all))
    ensures Leaning(g, m, objectNum, all)
  {
    hide WellFormed, Denote, ReplayRuns, Leans, RunsOk, Consolidated, Leaning, InOrder, NoNewNeighbour, NextId,
        NoneFrom;
    var base := NextIdExists(m, objectNum);
    var sorted := ConsolidatedExists(all);
    IdsBelow(m, objectNum, base, g.Stride());
    InOrderLeans(g, m, base, all, sorted);
    LeaningIs(g, m, objectNum, all, base, sorted);
  }

  lemma EmptyLoaded(stride: nat, cfgObjectNum: nat)
    ensures IsLoaded(map[], stride, cfgObjectNum, map[], cfgObjectNum)
  {
    Volume.EmptyIndex(stride);
  }

  /** Loads the live checkpoint, or starts empty. */
  method LoadSaved(vb: Volume.VB, cfgObjectNum: nat) returns (ok: bool, m: Index, next: nat)
    requires vb.Valid() && cfgObjectNum <= Capacity(8)
    ensures ok && IsLoaded(SavedMap(vb.v), vb.g.Stride(), cfgObjectNum, m, next) && next <= Capacity(8)
  {
    hide WellFormed, RefsExact, Denote, Geometry.Ok, RunsFit, Walk, Collect, FlatMeaning, Coherent, Durable, Recorded,
        Maximal, NextFor, Capacity;
    CoherentRunsFit(vb.g, vb.v);
    ok, m, next := true, map[], cfgObjectNum;
    EmptyLoaded(vb.g.Stride(), cfgObjectNum);
    if vb.live.Some? {
      ok, m, next := LoadCheckpoint(vb.crc, vb.live.value, vb.g.version, vb.g.Stride(), cfgObjectNum);
      NextForRecords(vb.crc, vb.live.value, vb.g.version, SavedMap(vb.v), cfgObjectNum, next);
    }
  }

  // ----- The new process -----

  function NewChunks(g: Geometry, out: Layout): map<nat, seq<byte>>
    requires g.Ok()
  {
    map id | id in out :: ChunkBytes(g, out[id])
  }

  lemma NewChunksMatch(g: Geometry, chunks: map<nat, seq<byte>>, packed: Layout, out: Layout)
    requires g.Ok() && BytesMatch(g, chunks, packed)
    ensures BytesMatch(g, chunks + NewChunks(g, out), packed + out)
  {
    hide ChunkBytes, Geometry.Ok;
  }

  /** The counter of the new process is past everything in the checkpoint. */
  ghost predicate SavedCounted(v: View, seqNum: nat)
  {
    forall b :: b in SavedMap(v) ==> SavedMap(v)[b].seqNum <= seqNum
  }

  /** The new process is in order: over the old chunks and its own, with the disk its newest writes stand for. */
  ghost predicate SoundAfter(g: Geometry, crc: Checksum, w: View, chunks: map<nat, seq<byte>>, live: Option<seq<byte>>,
                             out: Layout, dirty: bool)
    requires g.Ok()
  {
    Volume.Sound(g, crc, w, chunks + NewChunks(g, out), live, Rendered(g.blockSize, w.latest, g.numBlocks), dirty)
  }

  /** The new process is in order exactly when its recovery did right by every record and its counter is high enough. */
  lemma RestartSound(g: Geometry, crc: Checksum, v: View, chunks: map<nat, seq<byte>>, live: Option<seq<byte>>,
                     disk: seq<byte>, dirty: bool, d: map<nat, Loc>, out: Layout, all: seq<Block>, seqNum: nat,
                     objectNum: nat)
    requires g.Ok() && Volume.Sound(g, crc, v, chunks, live, disk, dirty) && Replayed(g, v, d, out, all, objectNum)
    requires forall x :: x in all ==> x.seqNum <= seqNum
    ensures SoundAfter(g, crc, AfterRestart(v, d, out, all, seqNum, objectNum), chunks, live, out, true)
       <==> AllNewest(g, SavedMap(v), d, out, Newest(all)) && SavedCounted(v, seqNum)
  {
    hide Coherent, Durable, Recorded, Replayed, AllNewest, Newest, BytesMatch, Shows, CheckpointOf, NewChunks, Restored,
        Remembered, Rendered, Geometry.Ok;
    var w := AfterRestart(v, d, out, all, seqNum, objectNum);
    if AllNewest(g, SavedMap(v), d, out, Newest(all)) && Counted(v, all, seqNum) {
      RestartCoherent(g, v, d, out, all, seqNum, objectNum);
      RestartDurable(g, v, d, out, all, seqNum, objectNum);
      RestartRecorded(g, v, d, out, all, seqNum, objectNum);
      NewChunksMatch(g, chunks, v.packed, out);
      RestartShows(g, v, d, out, all, seqNum, objectNum);
    }
    if Coherent(g, w) {
      RecordedWrote(g, v);
      CoherentNewest(g, v, d, out, all, seqNum, objectNum);
      forall b | b in SavedMap(v) ensures SavedMap(v)[b].seqNum <= seqNum {
        CoherentCounted(g, v, d, out, all, seqNum, objectNum, b);
      }
    }
  }

  lemma RecordedWrote(g: Geometry, v: View)
    requires Recorded(g, v)
    ensures WroteOk(g, v.wrote, v.latest)
  {
  }

  lemma RestartShows(g: Geometry, v: View, d: map<nat, Loc>, out: Layout, all: seq<Block>, seqNum: nat, objectNum: nat)
    requires Coherent(g, v) && Recorded(g, v) && Replayed(g, v, d, out, all, objectNum) && Counted(v, all, seqNum)
    ensures var disk := Rendered(g.blockSize, Restored(v.wrote, d), g.numBlocks);
            Shows(g, disk, Restored(v.wrote, d)) && |disk| == Times(g.numBlocks, g.blockSize)
  {
    hide Coherent, Recorded, Replayed, Counted, Restored, Rendered, IsBlock;
    RestartLatest(g, v, d, out, all, seqNum, objectNum);
    RenderedShows(g, Restored(v.wrote, d));
  }

  /** Block b of the disk is as it was. */
  ghost predicate ReadsSame(before: seq<byte>, after: seq<byte>, b: nat, bs: nat)
  {
    && Times(b, bs) + bs <= |before| && Times(b, bs) + bs <= |after|
    && BlockAt(before, b, bs) == BlockAt(after, b, bs)
  }

  /** Blocks that survive read as before, others as an older write of theirs or as zeros. */
  lemma SurvivorsShow(g: Geometry, v: View, disk: seq<byte>, latest: map<nat, Block>, after: seq<byte>, b: nat)
    requires Shows(g, disk, v.latest) && Shows(g, after, latest) && b < g.numBlocks
    requires if b in v.latest then b in latest && latest[b] == v.latest[b] else b !in latest
    ensures ReadsSame(disk, after, b, g.blockSize)
  {
    assert IsBlock(disk, b, g.blockSize, Content(g.blockSize, v.latest, b));
    assert IsBlock(after, b, g.blockSize, Content(g.blockSize, latest, b));
  }

  lemma NoRecords(records: map<nat, Block>)
    requires OutHasAll(map[], records)
    ensures records == map[]
  {
    if b :| b in records {
      assert false;
    }
  }

  /** With nothing recovered, the map is the checkpoint. */
  lemma NothingRecovered(g: Geometry, v: View, d: map<nat, Loc>, out: Layout, all: seq<Block>, seqNum: nat,
                         objectNum: nat)
    requires Replayed(g, v, d, out, all, objectNum) && out == map[]
    ensures Current(AfterRestart(v, d, out, all, seqNum, objectNum))
  {
    hide Newest, Left, OutOk, FreshIds, AllMoveOrStay, NoneFrom;
    NoRecords(Newest(all));
    forall b: nat ensures Get(d, b) == Get(SavedMap(v), b) {
    }
    SameMap(d, SavedMap(v));
  }

  lemma RestartSoundClean(g: Geometry, crc: Checksum, v: View, chunks: map<nat, seq<byte>>, live: Option<seq<byte>>,
                          d: map<nat, Loc>, out: Layout, all: seq<Block>, seqNum: nat, objectNum: nat)
    requires g.Ok() && Replayed(g, v, d, out, all, objectNum)
    ensures var w := AfterRestart(v, d, out, all, seqNum, objectNum);
            SoundAfter(g, crc, w, chunks, live, out, out != map[]) <==> SoundAfter(g, crc, w, chunks, live, out, true)
  {
    hide Coherent, Durable, Recorded, Replayed, BytesMatch, Shows, CheckpointOf, NewChunks, Rendered, Geometry.Ok,
        AfterRestart;
    if out == map[] {
      NothingRecovered(g, v, d, out, all, seqNum, objectNum);
    }
  }

  /** All that a guest finds after the crash. */
  lemma RestartShowsSurvivors(g: Geometry, v: View, disk: seq<byte>, d: map<nat, Loc>, out: Layout, all: seq<Block>,
                              seqNum: nat, objectNum: nat, b: nat)
    requires Coherent(g, v) && Durable(v) && Recorded(g, v) && Replayed(g, v, d, out, all, objectNum)
    requires Counted(v, all, seqNum) && AllNewest(g, SavedMap(v), d, out, Newest(all)) && Shows(g, disk, v.latest)
    requires b < g.numBlocks && (b in v.latest ==> Survives(v, all, b))
    ensures ReadsSame(disk, Rendered(g.blockSize, Restored(v.wrote, d), g.numBlocks), b, g.blockSize)
  {
    hide Coherent, Durable, Recorded, Replayed, Counted, AllNewest, Newest, Shows, Survives, Restored, Rendered,
        ReadsSame;
    RestartShows(g, v, d, out, all, seqNum, objectNum);
    if b in v.latest {
      SurvivorRestored(g, v, d, out, all, objectNum, b);
    } else if b in Restored(v.wrote, d) {
      RestoredNotNew(g, v, d, out, all, objectNum, b);
    }
    SurvivorsShow(g, v, disk, Restored(v.wrote, d), Rendered(g.blockSize, Restored(v.wrote, d), g.numBlocks), b);
  }

  /** A block is restored to an old write of its own. */
  lemma RestoredNotNew(g: Geometry, v: View, d: map<nat, Loc>, out: Layout, all: seq<Block>, objectNum: nat, b: nat)
    requires Coherent(g, v) && Recorded(g, v) && Replayed(g, v, d, out, all, objectNum) && b in Restored(v.wrote, d)
    ensures Restored(v.wrote, d)[b].block == b && Genuine(v.latest, Restored(v.wrote, d)[b])
  {
    hide Coherent, Recorded, Replayed, Restored, Genuine;
    RestoredKeys(v.wrote, d);
    var _ := RestoredAt(g, v, d, out, all, objectNum, b);
    RecordedWrote(g, v);
    RestoredIsOld(g, v, d, b);
  }

  // ----- The restart -----

  lemma SoundLeft(vb: Volume.VB, all: seq<Block>)
    requires vb.Valid() && vb.v.retained <= all <= vb.v.retained + vb.wal
    ensures Left(vb.v, all) && Coherent(vb.g, vb.v) && Durable(vb.v) && Recorded(vb.g, vb.v)
    ensures Shows(vb.g, vb.disk, vb.v.latest)
    ensures forall x :: x in all ==> x.seqNum <= vb.seqNum
  {
    hide Coherent, Durable, Recorded, Shows;
    LeftCounted(vb.g, vb.v, all);
  }

  lemma LeftCounted(g: Geometry, v: View, all: seq<Block>)
    requires Coherent(g, v) && Durable(v) && Left(v, all)
    ensures forall x :: x in all ==> x.seqNum <= v.seqNum
  {
    LeftIsPrefix(v, all);
    HistoryIsOld(g, v);
    forall x | x in all ensures x.seqNum <= v.seqNum {
      var i :| 0 <= i < |all| && all[i] == x;
      assert v.History()[i] == x;
    }
  }

  /** What is left of the log after a crash that cuts the open file. */
  ghost function LeftLog(v: View, c: Cipher, cut: nat, blockSize: nat): seq<Block>
  {
    v.retained + Surviving(c, v.wal, cut, blockSize)
  }

  /** Loads the checkpoint and replays the log files into the map. */
  method Recover(vb: Volume.VB, c: Cipher, files: seq<seq<byte>>, cfgSeqNum: nat, cfgObjectNum: nat,
                 putOk: nat -> bool, ghost segments: seq<seq<Block>>, ghost stamps: seq<nat>, ghost cut: nat)
    returns (ok: bool, seqNum: nat, next: nat, out: Layout)
    requires vb.Valid() && cfgObjectNum <= Capacity(8) && c.Opens(vb.g.blockSize)
    requires Flatten(segments) == vb.v.retained && OnDisk(vb.g, c, vb.crc, segments, vb.wal, stamps, cut, files)
    modifies vb.blockMap
    ensures vb.blockMap.Valid() && seqNum >= cfgSeqNum
    ensures ok ==>
      var all, d := LeftLog(vb.v, c, cut, vb.g.blockSize), vb.blockMap.Contents();
      && Replayed(vb.g, vb.v, d, out, all, next) && next <= Capacity(8) && (forall x :: x in all ==> x.seqNum <= seqNum)
      && (seqNum == cfgSeqNum || exists x :: x in all && x.seqNum == seqNum)
      && (AllNewest(vb.g, SavedMap(vb.v), d, out, Newest(all)) <==> WillLean(vb.g, SavedMap(vb.v), cfgObjectNum, all))
    ensures (forall id :: putOk(id)) && RoomFor(vb.v, cfgObjectNum, LeftLog(vb.v, c, cut, vb.g.blockSize)) ==> ok
  {
    hide OnDisk, Flatten, WellFormed, RefsExact, Denote, AllRecovered, AllNewest, OthersStay, FreshIds, Volume.Sound,
        Leaning, Newest, Surviving, Maximal, Capacity, OutOk, OutHasAll, AllMoveOrStay, Geometry.Ok, WillLean, Left,
        Cipher.Opens;
    ghost var all := LeftLog(vb.v, c, cut, vb.g.blockSize);
    SoundLeft(vb, all);
    DiskRecovers(vb.g, c, vb.crc, segments, vb.wal, stamps, cut, files);
    var _, m, start := LoadSaved(vb, cfgObjectNum);
    WillLeanIs(vb.g, SavedMap(vb.v), cfgObjectNum, all, m, start);
    vb.blockMap.Load(m);
    ok, seqNum, next, out := RecoverLocalWALs(vb.blockMap, vb.g, c, vb.crc, files, cfgSeqNum, start, putOk);
  }

  /** There are chunk ids enough for everything in the log. */
  ghost predicate RoomFor(v: View, cfgObjectNum: nat, all: seq<Block>)
  {
    forall start: nat :: NextFor(SavedMap(v), cfgObjectNum, start) ==> start + |all| <= Capacity(8)
  }

  lemma RestartFields(v: View, d: map<nat, Loc>, out: Layout, all: seq<Block>, seqNum: nat, objectNum: nat)
    ensures var w := AfterRestart(v, d, out, all, seqNum, objectNum);
            && w.entries == map[] && w.located == d && w.mapped == d && w.writes == [] && w.wal == []
            && w.present == v.present + out.Keys && w.seqNum == seqNum && w.objectNum == objectNum
  {
  }

  lemma NewChunkIds(g: Geometry, out: Layout)
    requires g.Ok()
    ensures NewChunks(g, out).Keys == out.Keys
  {
  }

  lemma SoundAfterIs(g: Geometry, crc: Checksum, w: View, chunks: map<nat, seq<byte>>, live: Option<seq<byte>>,
                     out: Layout, dirty: bool)
    requires g.Ok()
    ensures SoundAfter(g, crc, w, chunks, live, out, dirty)
       <==> Volume.Sound(g, crc, w, chunks + NewChunks(g, out), live,
                         Rendered(g.blockSize, w.latest, g.numBlocks), dirty)
  {
  }

  /** The new process takes over: it refills the block store and sets its counters. */
  method TakeOver(vb: Volume.VB, seqNum: nat, next: nat, out: Layout, ghost all: seq<Block>)
    requires vb.g.Ok() && vb.blockMap.Valid() && vb.blockMap.stride == vb.store.stride == vb.g.Stride()
    requires vb.size <= Times(vb.g.numBlocks, vb.g.blockSize) < vb.size + vb.g.blockSize
    requires seqNum <= vb.SeqLimit() && next <= Capacity(8) && vb.v.present == vb.chunks.Keys
    modifies vb, vb.store
    ensures vb.Parts() && vb.Agrees() && vb.live == old(vb.live)
    ensures vb.v == AfterRestart(old(vb.v), old(vb.blockMap.Contents()), out, all, seqNum, next)
    ensures vb.disk == Rendered(vb.g.blockSize, vb.v.latest, vb.g.numBlocks)
    ensures vb.Valid() <==> SoundAfter(vb.g, vb.crc, vb.v, old(vb.chunks), vb.live, out, out != map[])
  {
    hide WellFormed, RefsExact, Denote, Volume.Sound, Geometry.Ok, Rendered, Capacity, Restored, Remembered, Times,
        NewChunks, AfterRestart, SoundAfter;
    RestartFields(vb.v, vb.blockMap.Contents(), out, all, seqNum, next);
    NewChunkIds(vb.g, out);
    SoundAfterIs(vb.g, vb.crc, AfterRestart(vb.v, vb.blockMap.Contents(), out, all, seqNum, next), vb.chunks, vb.live,
                 out, out != map[]);
    vb.store.Load(vb.blockMap.blockLookup);
    vb.seqNum, vb.objectNum, vb.writes, vb.wal, vb.dirty := seqNum, next, [], [], out != map[];
    vb.chunks := vb.chunks + NewChunks(vb.g, out);
    vb.v := AfterRestart(vb.v, vb.blockMap.Contents(), out, all, seqNum, next);
    vb.disk := Rendered(vb.g.blockSize, vb.v.latest, vb.g.numBlocks);
  }

  /** The state w the new process ends in, from the old process's state v and what is left of its log. */
  ghost predicate TakenOver(g: Geometry, v: View, w: View, out: Layout, all: seq<Block>, cfgObjectNum: nat, valid: bool)
  {
    && w == AfterRestart(v, w.mapped, out, all, w.seqNum, w.objectNum)
    && Replayed(g, v, w.mapped, out, all, w.objectNum)
    && (AllNewest(g, SavedMap(v), w.mapped, out, Newest(all)) <==> WillLean(g, SavedMap(v), cfgObjectNum, all))
    && (valid <==> WillLean(g, SavedMap(v), cfgObjectNum, all) && SavedCounted(v, w.seqNum))
  }

  /** Every block whose newest write is on disk has it and reads as before; none has anything but a write of its own. */
  ghost predicate SurvivorsBack(g: Geometry, v: View, w: View, disk: seq<byte>, after: seq<byte>, all: seq<Block>)
  {
    && (forall b :: b in v.latest && Survives(v, all, b) ==> b in w.latest && w.latest[b] == v.latest[b])
    && (forall b: nat :: b < g.numBlocks && (b in v.latest ==> Survives(v, all, b)) ==>
          ReadsSame(disk, after, b, g.blockSize))
    && (forall b :: b in w.latest ==> w.latest[b].block == b && Genuine(v.latest, w.latest[b]))
  }

  lemma SurvivorsAreBack(g: Geometry, v: View, w: View, disk: seq<byte>, out: Layout, all: seq<Block>)
    requires Coherent(g, v) && Durable(v) && Recorded(g, v) && Shows(g, disk, v.latest)
    requires w == AfterRestart(v, w.mapped, out, all, w.seqNum, w.objectNum)
    requires Replayed(g, v, w.mapped, out, all, w.objectNum) && Counted(v, all, w.seqNum)
    requires AllNewest(g, SavedMap(v), w.mapped, out, Newest(all))
    ensures SurvivorsBack(g, v, w, disk, Rendered(g.blockSize, w.latest, g.numBlocks), all)
  {
    hide Coherent, Durable, Recorded, Replayed, Counted, AllNewest, Newest, Shows, Survives, Restored, Remembered,
        Rendered, ReadsSame, Genuine;
    var d := w.mapped;
    assert w.latest == Restored(v.wrote, d);
    forall b | b in v.latest && Survives(v, all, b) ensures b in w.latest && w.latest[b] == v.latest[b] {
      SurvivorRestored(g, v, d, out, all, w.objectNum, b);
    }
    forall b: nat | b < g.numBlocks && (b in v.latest ==> Survives(v, all, b))
      ensures ReadsSame(disk, Rendered(g.blockSize, w.latest, g.numBlocks), b, g.blockSize)
    {
      RestartShowsSurvivors(g, v, disk, d, out, all, w.seqNum, w.objectNum, b);
    }
    forall b | b in w.latest ensures w.latest[b].block == b && Genuine(v.latest, w.latest[b]) {
      RestoredNotNew(g, v, d, out, all, w.objectNum, b);
    }
  }

  /**
   The volume crashes at any moment of any run. A new process loads the live
   checkpoint, which may be older than the map, and replays the log files: the
   rotated ones, drained or not, and the open one, cut at any byte.

   The new process is a valid volume exactly when the records lean and its counter
   is past the checkpoint. Then every block whose newest write is on disk is back at
   it, and reads as before. If the checkpoint was saved with nothing stranded, the
   records lean unless a new block directly follows a drained one.
   */
  method RestartAfterCrash(vb: Volume.VB, c: Cipher, files: seq<seq<byte>>, cfgSeqNum: nat, cfgObjectNum: nat,
                           putOk: nat -> bool, ghost segments: seq<seq<Block>>, ghost stamps: seq<nat>, ghost cut: nat)
    returns (ok: bool, ghost out: Layout)
    requires vb.Valid() && cfgSeqNum <= vb.SeqLimit() && cfgObjectNum <= Capacity(8) && c.Opens(vb.g.blockSize)
    requires Flatten(segments) == vb.v.retained && OnDisk(vb.g, c, vb.crc, segments, vb.wal, stamps, cut, files)
    modifies vb, vb.blockMap, vb.store
    ensures ok ==>
      var v, all := old(vb.v), old(LeftLog(vb.v, c, cut, vb.g.blockSize));
      && vb.Parts() && vb.Agrees() && vb.seqNum >= cfgSeqNum
      && TakenOver(vb.g, v, vb.v, out, all, cfgObjectNum, vb.Valid())
      && (vb.Valid() ==> SurvivorsBack(vb.g, v, vb.v, old(vb.disk), vb.disk, all))
      && (v.settled.Some? && NoNewNeighbour(SavedMap(v), Newest(all)) ==>
            WillLean(vb.g, SavedMap(v), cfgObjectNum, all))
    ensures (forall id :: putOk(id)) && RoomFor(old(vb.v), cfgObjectNum, old(LeftLog(vb.v, c, cut, vb.g.blockSize)))
            ==> ok
  {
    hide OnDisk, Flatten, WellFormed, RefsExact, Denote, Volume.Sound, AllNewest, Newest, LeftLog, Replayed, Capacity,
        Geometry.Ok, WillLean, NoNewNeighbour, AfterRestart, Cipher.Opens, SoundAfter, SurvivorsBack, RoomFor, Left;
    ghost var v, all, disk := vb.v, LeftLog(vb.v, c, cut, vb.g.blockSize), vb.disk;
    LeftLogLeft(vb.v, c, cut, vb.g.blockSize);
    SoundLeft(vb, all);
    var seqNum, next, made;
    ok, seqNum, next, made := Recover(vb, c, files, cfgSeqNum, cfgObjectNum, putOk, segments, stamps, cut);
    out := made;
    if !ok {
      return;
    }
    ghost var d := vb.blockMap.Contents();
    RestartSound(vb.g, vb.crc, v, vb.chunks, vb.live, disk, vb.dirty, d, out, all, seqNum, next);
    RestartSoundClean(vb.g, vb.crc, v, vb.chunks, vb.live, d, out, all, seqNum, next);
    TakeOver(vb, seqNum, next, made, all);
    RestartFields(v, d, out, all, seqNum, next);
    if vb.Valid() {
      SurvivorsAreBack(vb.g, v, vb.v, disk, out, all);
    }
    if v.settled.Some? && NoNewNeighbour(SavedMap(v), Newest(all)) {
      SettledWillLean(vb.g, v, cfgObjectNum, all);
    }
  }

  lemma LeftLogLeft(v: View, c: Cipher, cut: nat, blockSize: nat)
    ensures v.retained <= LeftLog(v, c, cut, blockSize) <= v.retained + v.wal
  {
  }

  /**
   The end of a recovery: save the live checkpoint, then remove the log files. They go
   even if the checkpoint could not be saved, and a further crash then keeps every
   block exactly if the old checkpoint had them all.
   */
  method FinishRecovery(vb: Volume.VB, timestamp: nat, putOk: bool) returns (ok: bool)
    requires vb.Valid() && vb.v.entries == map[] && vb.v.Log() == [] && vb.v.dropped == {} && timestamp < Capacity(8)
    modifies vb
    ensures vb.disk == old(vb.disk) && vb.v.latest == old(vb.v.latest) && vb.v.mapped == old(vb.v.mapped)
    ensures vb.v.retained == [] && vb.seqNum == old(vb.seqNum) && (ok <==> !old(vb.dirty) || putOk)
    ensures ok ==> vb.Valid() && !vb.dirty
    ensures !ok ==> (Kept(vb.v) <==> AllDrained(SavedMap(old(vb.v)), old(vb.v.latest)))
  {
    hide Volume.Sound, WellFormed, RefsExact, Denote, Capacity, Geometry.Ok;
    ok := vb.SaveLiveCheckpoint(timestamp, putOk);
    if ok {
      MappedFits(vb);
      Volume.ReloadSound(vb.g, vb.crc, vb.v, vb.chunks, vb.live, vb.disk, vb.seqNum, vb.objectNum);
      vb.v := AfterReload(vb.v, vb.seqNum, vb.objectNum);
    } else {
      vb.v := vb.v.(retained := []);
      assert vb.v.History() == [];
    }
  }

  lemma MappedFits(vb: Volume.VB)
    requires vb.Valid() && vb.v.entries == map[] && vb.v.Log() == []
    ensures vb.v.located == vb.v.mapped && vb.v.writes == [] && vb.v.wal == []
    ensures forall b :: b in vb.v.mapped ==> vb.v.mapped[b].chunk < vb.objectNum && vb.v.mapped[b].seqNum <= vb.seqNum
  {
    hide Durable, Recorded, Shows, BytesMatch, CheckpointOf, Coherent;
    LocatedIsMapped(vb.g, vb.v);
    forall b | b in vb.v.mapped ensures vb.v.mapped[b].chunk < vb.objectNum && vb.v.mapped[b].seqNum <= vb.seqNum {
      MapEncodable(vb.g, vb.v, b);
    }
    EmptyLog(vb.v);
  }

  lemma EmptyLog(v: View)
    requires v.Log() == []
    ensures v.wal == [] && v.writes == []
  {
    assert |v.Log()| == |v.wal| + |v.writes|;
  }
}
