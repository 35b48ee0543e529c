/** A running volume: the write, flush, consolidate, checkpoint, sweep and reload pipeline. */
module Volume {
  import opened Bytes
  import opened Extents
  import opened Sorting
  import opened Blocks
  import opened Chunks
  import opened Wal
  import opened FlatDisk
  import opened BlockStore
  import opened BlocksToObjectMap
  import opened Checkpoint
  import opened ReadPath
  import opened VolumeState
  import opened Durability
  import opened Provenance
  import opened Drain

  datatype ReadResult =
    | ReadError(reason: string)
    | Data(bytes: seq<byte>, zero: bool)

  ghost predicate LiveOk(crc: Checksum, version: nat, v: View, live: Option<seq<byte>>)
  {
    && (live.Some? <==> v.saved.Some?)
    && (live.Some? ==> CheckpointOf(crc, live.value, version, v.saved.value))
  }

  /** What holds of a volume's values between operations. */
  ghost predicate Sound(g: Geometry, crc: Checksum, v: View, chunks: Backend, live: Option<seq<byte>>,
                        disk: seq<byte>, dirty: bool)
    requires g.Ok()
  {
    && Coherent(g, v) && Durable(v) && Recorded(g, v)
    && BytesMatch(g, chunks, v.packed)
    && LiveOk(crc, g.version, v, live)
    && Shows(g, disk, v.latest) && |disk| == Times(g.numBlocks, g.blockSize)
    && (!dirty ==> Current(v))
  }

  lemma FlushSound(g: Geometry, crc: Checksum, v: View, chunks: Backend, live: Option<seq<byte>>, disk: seq<byte>,
                   dirty: bool, n: nat)
    requires g.Ok() && Sound(g, crc, v, chunks, live, disk, dirty) && n <= |v.writes|
    ensures Sound(g, crc, AfterFlush(v, n), chunks, live, disk, dirty)
  {
    hide Coherent, Durable, Recorded, Shows, BytesMatch, CheckpointOf, Times;
    FlushCoherent(g, v, n);
    FlushDurable(v, n);
    FlushRecorded(g, v, n);
  }

  lemma PublishSound(g: Geometry, crc: Checksum, v: View, chunks: Backend, live: Option<seq<byte>>, disk: seq<byte>,
                     cells: map<nat, Loc>, drained: set<Block>)
    requires g.Ok() && Sound(g, crc, v, chunks, live, disk, true) && Publishable(g, v, cells, drained)
    requires CellsLogged(v, cells)
    ensures Sound(g, crc, AfterPublish(v, cells, drained), chunks, live, disk, true)
  {
    hide Coherent, Durable, Recorded, Shows, BytesMatch, CheckpointOf, Times, Publishable, CellsLogged;
    PublishCoherent(g, v, cells, drained);
    PublishDurable(g, v, cells, drained);
    PublishRecorded(g, v, cells, drained);
  }

  lemma UploadSound(g: Geometry, crc: Checksum, v: View, chunks: Backend, live: Option<seq<byte>>, disk: seq<byte>,
                    blocks: seq<Block>)
    requires g.Ok() && Sound(g, crc, v, chunks, live, disk, true) && PackedOk(g, blocks)
    requires forall i :: 0 <= i < |blocks| ==> Genuine(v.latest, blocks[i]) && blocks[i] in v.retained
    ensures Sound(g, crc, AfterUpload(v, blocks), chunks[v.objectNum := ChunkBytes(g, blocks)], live, disk, true)
  {
    hide Coherent, Durable, Recorded, Shows, CheckpointOf, Times, PackedOk, Genuine, ChunkBytes, Geometry.Ok;
    UploadCoherent(g, v, blocks);
    SameLogDurable(v, AfterUpload(v, blocks));
    UploadRecorded(g, v, blocks);
  }

  lemma BurnSound(g: Geometry, crc: Checksum, v: View, chunks: Backend, live: Option<seq<byte>>, disk: seq<byte>,
                  dirty: bool)
    requires g.Ok() && Sound(g, crc, v, chunks, live, disk, dirty)
    ensures Sound(g, crc, v.(objectNum := v.objectNum + 1), chunks, live, disk, dirty)
  {
    hide Coherent, Durable, Recorded, Shows, BytesMatch, CheckpointOf, Times;
    BurnCoherent(g, v);
    SameLogDurable(v, v.(objectNum := v.objectNum + 1));
    SameLogRecorded(g, v, v.(objectNum := v.objectNum + 1));
  }

  lemma RotateSound(g: Geometry, crc: Checksum, v: View, chunks: Backend, live: Option<seq<byte>>, disk: seq<byte>,
                    dirty: bool, sorted: seq<Block>)
    requires g.Ok() && Sound(g, crc, v, chunks, live, disk, dirty) && Consolidated(v.wal, sorted)
    ensures Sound(g, crc, AfterRotate(v, sorted), chunks, live, disk, dirty)
    ensures Draining(AfterRotate(v, sorted), v.objectNum, sorted, {})
    ensures Increasing(Numbers(sorted)) && forall i :: 0 <= i < |sorted| ==> Sized(g, sorted[i])
  {
    hide Coherent, Durable, Recorded, Shows, BytesMatch, CheckpointOf, Times, Draining;
    RotateCoherent(g, v, sorted);
    RotateDurable(g, v, sorted);
    RotateRecorded(g, v, sorted);
    DrainingStarts(g, v, sorted);
    SortedReal(g, v, sorted);
  }

  lemma SoundDirty(g: Geometry, crc: Checksum, v: View, chunks: Backend, live: Option<seq<byte>>, disk: seq<byte>,
                   dirty: bool)
    requires g.Ok() && Sound(g, crc, v, chunks, live, disk, dirty)
    ensures Sound(g, crc, v, chunks, live, disk, true)
  {
  }

  lemma SaveSound(g: Geometry, crc: Checksum, v: View, chunks: Backend, live: Option<seq<byte>>, disk: seq<byte>,
                  dirty: bool, raw: seq<byte>)
    requires g.Ok() && Sound(g, crc, v, chunks, live, disk, dirty) && CheckpointOf(crc, raw, g.version, v.mapped)
    ensures Sound(g, crc, AfterSave(v), chunks, Some(raw), disk, false)
  {
    hide Coherent, Durable, Recorded, Shows, BytesMatch, CheckpointOf, Times;
    SaveCoherent(g, v);
    SaveDurable(g, v);
    SaveRecorded(g, v);
  }

  lemma SoundEncodable(g: Geometry, crc: Checksum, v: View, chunks: Backend, live: Option<seq<byte>>,
                       disk: seq<byte>, dirty: bool)
    requires g.Ok() && Sound(g, crc, v, chunks, live, disk, dirty) && v.seqNum < Capacity(8)
    requires v.objectNum <= Capacity(8)
    ensures Encodable(v.mapped)
  {
    hide Coherent, Durable, Recorded, Shows, BytesMatch, CheckpointOf, Times;
    forall b | b in v.mapped
      ensures b < Capacity(8) && v.mapped[b].chunk < Capacity(8) && v.mapped[b].offset < Capacity(4)
      ensures v.mapped[b].seqNum < Capacity(8)
    {
      MapEncodable(g, v, b);
    }
  }

  lemma DrainedSound(g: Geometry, crc: Checksum, v: View, chunks: Backend, live: Option<seq<byte>>, disk: seq<byte>,
                     dirty: bool)
    requires g.Ok() && Sound(g, crc, v, chunks, live, disk, dirty) && v.writes == [] && v.wal == [] && v.stranded == {}
    ensures v.entries == map[]
  {
    DrainedMemoryEmpty(g, v);
  }

  ghost predicate Unreferenced(refs: map<nat, nat>, ids: set<nat>)
  {
    forall id :: id in ids ==> Count(refs, id) == 0
  }

  lemma StillUnreferenced(refs: map<nat, nat>, swept: set<nat>, ids: set<nat>, id: nat)
    requires Unreferenced(refs, ids) && id in ids
    ensures Count(refs - swept, id) == 0 && refs - swept - {id} == refs - (swept + {id})
  {
  }

  /** The tracked chunks a sweep may delete. */
  function Candidates(refs: map<nat, nat>, floor: nat, watermark: nat): (ids: set<nat>)
    ensures Unreferenced(refs, ids)
    ensures forall id :: id in ids ==> floor <= id < watermark
    ensures forall id :: id in refs && floor <= id < watermark && id !in ids ==> Count(refs, id) > 0
  {
    set id | id in refs && refs[id] == 0 && floor <= id < watermark
  }

  lemma SweepSound(g: Geometry, crc: Checksum, v: View, chunks: Backend, live: Option<seq<byte>>, disk: seq<byte>,
                   id: nat)
    requires g.Ok() && Sound(g, crc, v, chunks, live, disk, false)
    requires forall b :: b in v.mapped ==> v.mapped[b].chunk != id
    ensures Sound(g, crc, v.(present := v.present - {id}), chunks - {id}, live, disk, false)
  {
    hide Coherent, Durable, Recorded, Shows, CheckpointOf, Times, ChunkBytes;
    SweepCoherent(g, v, {id});
    SameLogDurable(v, v.(present := v.present - {id}));
    SameLogRecorded(g, v, v.(present := v.present - {id}));
  }

  lemma ReloadSound(g: Geometry, crc: Checksum, v: View, chunks: Backend, live: Option<seq<byte>>, disk: seq<byte>,
                    seqNum: nat, objectNum: nat)
    requires g.Ok() && Sound(g, crc, v, chunks, live, disk, false) && v.entries == map[]
    requires forall b :: b in v.mapped ==> v.mapped[b].chunk < objectNum
    ensures Sound(g, crc, AfterReload(v, seqNum, objectNum), chunks, live, disk, false)
       <==> forall b :: b in v.mapped ==> v.mapped[b].seqNum <= seqNum
  {
    hide Coherent, Durable, Recorded, Shows, BytesMatch, CheckpointOf, Times;
    var w := AfterReload(v, seqNum, objectNum);
    if forall b :: b in v.mapped ==> v.mapped[b].seqNum <= seqNum {
      ReloadCoherent(g, v, seqNum, objectNum);
      ReloadDurable(g, v, seqNum, objectNum);
      ReloadRecorded(g, v, seqNum, objectNum);
    }
    if Coherent(g, w) {
      forall b | b in v.mapped ensures v.mapped[b].seqNum <= seqNum {
        MapEncodable(g, w, b);
      }
    }
  }

  /** What a clean volume's checkpoint reads back as. */
  lemma SavedReads(g: Geometry, crc: Checksum, v: View, chunks: Backend, live: Option<seq<byte>>, disk: seq<byte>)
    requires g.Ok() && Sound(g, crc, v, chunks, live, disk, false)
    ensures live.None? ==> v.mapped == map[]
    ensures live.Some? ==> CheckpointOf(crc, live.value, g.version, v.mapped)
    ensures RunsFit(v.mapped, g.Stride())
  {
    hide Durable, Recorded, Shows, BytesMatch;
    CoherentRunsFit(g, v);
  }

  /** What becomes of one chunk of a drain. */
  datatype Fate = Stored | PutFailed | NotSubmitted

  ghost predicate AllStored(fate: nat -> Fate, n: nat)
  {
    forall k: nat :: k < n ==> fate(k).Stored?
  }

  /** Nothing goes wrong in a drain: file, backend and chunk ids suffice. */
  ghost predicate AllWell(buffered: nat, logged: nat, objectNum: nat, accepted: nat, fate: nat -> Fate, putOk: bool)
  {
    accepted >= buffered && AllStored(fate, logged + buffered) && putOk && objectNum + logged + buffered <= Capacity(8)
  }

  /** What uploading and publishing leave alone: newest writes, log files and the live checkpoint. */
  ghost predicate OnDiskSame(v: View, w: View)
  {
    w.latest == v.latest && w.retained == v.retained && w.dropped == v.dropped && w.saved == v.saved
        && w.settled == v.settled
  }

  class VB {
    const g: Geometry
    const crc: Checksum
    const blockMap: BlocksToObject
    const store: UnifiedBlockStore
    const size: nat

    var seqNum: nat
    var objectNum: nat
    var writes: seq<Block>
    var wal: seq<Block>
    var dirty: bool

    var chunks: Backend
    var live: Option<seq<byte>>

    ghost var v: View
    ghost var disk: seq<byte>

    function SeqLimit(): nat
    {
      if g.cipher.Plain? then 0xFFFF_FFFF_FFFF_FFFF else 0xFF_FFFF_FFFF_FFFF
    }

    /** The view is what the fields say. */
    ghost predicate Agrees()
      requires blockMap.Valid() && store.Valid()
      reads this, blockMap, store
    {
      && v.entries == store.entries && v.located == store.Located() && v.mapped == blockMap.Contents()
      && v.writes == writes && v.wal == wal && v.present == chunks.Keys
      && v.seqNum == seqNum && v.objectNum == objectNum
    }

    ghost predicate Parts()
      reads this, blockMap, store
    {
      && g.Ok() && blockMap.Valid() && store.Valid()
      && blockMap.stride == g.Stride() && store.stride == g.Stride()
      && seqNum <= SeqLimit() && objectNum <= Capacity(8)
      && size <= Times(g.numBlocks, g.blockSize) < size + g.blockSize
    }

    ghost predicate Valid()
      reads this, blockMap, store
    {
      Parts() && Agrees() && Sound(g, crc, v, chunks, live, disk, dirty)
    }

    /** A new volume of the given size; its last block may be short. */
    constructor (g: Geometry, size: nat, crc: Checksum, gcEnabled: bool)
      requires g.Ok() && size <= Times(g.numBlocks, g.blockSize) < size + g.blockSize
      ensures Valid() && fresh(blockMap) && fresh(store)
      ensures this.g == g && this.size == size && disk == Zeros(Times(g.numBlocks, g.blockSize))
    {
      this.g, this.crc, this.size := g, crc, size;
      blockMap := new BlocksToObject(gcEnabled, g.Stride());
      store := new UnifiedBlockStore(g.Stride());
      seqNum, objectNum, writes, wal, dirty := 0, 0, [], [], false;
      chunks, live := map[], None;
      v := View(map[], map[], map[], None, [], [], {}, {}, [], Some(0), map[], {}, map[], map[], 0, 0);
      disk := Zeros(Times(g.numBlocks, g.blockSize));
      new;
      ZeroDiskShows(g);
      InitiallyCoherent(g, v);
      InitiallyDurable(v);
      InitiallyRecorded(g, v);
    }

    // ----- Reading -----

    /** Looks one block up; whatever comes back leads to the block's newest bytes. */
    method Lookup(b: nat) returns (answer: Answer)
      requires Valid()
      ensures answer.Missing? <==> b !in v.latest
      ensures answer.InMemory? ==> answer.entry.data == v.latest[b].data
      ensures answer.Uploaded? ==> forall pos :: Served(g, chunks, v.packed, Request(pos, b, answer.loc), v.latest[b])
    {
      answer := store.ReadEntry(b);
      ResolvesToLatest(g, v, b);
      if answer.Uploaded? {
        ghost var p: nat :| HoldsAt(g, v.packed, answer.loc, b, p) && v.packed[answer.loc.chunk][p] == v.latest[b];
        forall pos ensures Served(g, chunks, v.packed, Request(pos, b, answer.loc), v.latest[b]) {
          assert ServedAt(g, chunks, v.packed, Request(pos, b, answer.loc), v.latest[b], p);
        }
      }
    }

    /** Collects what each block of a range resolves to; uploaded blocks become requests. */
    method Gather(first: nat, count: nat)
      returns (pieces: seq<seq<byte>>, requests: seq<Request>, ghost want: seq<Block>, zero: bool)
      requires Valid() && first + count <= g.numBlocks
      ensures Gathered(g, v.latest, first, count, pieces, requests, want, zero)
      ensures AllServed(g, chunks, v.packed, requests, want)
    {
      hide Coherent, Durable, Recorded, Shows, BytesMatch, WellFormed, RefsExact, CheckpointOf;
      pieces, requests, want, zero := [], [], [], false;
      for i := 0 to count
        invariant Gathered(g, v.latest, first, i, pieces, requests, want, zero)
        invariant AllServed(g, chunks, v.packed, requests, want)
      {
        var answer := Lookup(first + i);
        match answer {
          case InMemory(entry) =>
            GatherData(g, v.latest, first, i, pieces, requests, want, zero, entry.data);
            pieces := pieces + [entry.data];
          case Uploaded(loc) =>
            var r := Request(i, first + i, loc);
            assert Served(g, chunks, v.packed, r, v.latest[first + i]);
            GatherRequest(g, v.latest, first, i, pieces, requests, want, zero, r);
            pieces, requests, want := pieces + [Zeros(g.blockSize)], requests + [r], want + [v.latest[first + i]];
          case Missing =>
            GatherZero(g, v.latest, first, i, pieces, requests, want, zero);
            pieces, zero := pieces + [Zeros(g.blockSize)], true;
        }
      }
    }

    /** Reads whole blocks. */
    method ReadBlocks(first: nat, count: nat) returns (ok: bool, data: seq<byte>, zero: bool)
      requires Valid() && first + count <= g.numBlocks
      ensures Times(first, g.blockSize) <= Times(first + count, g.blockSize) <= |disk|
      ensures ok && data == disk[Times(first, g.blockSize)..Times(first + count, g.blockSize)]
      ensures zero <==> exists b :: first <= b < first + count && b !in v.latest
    {
      TimesMono(first, first + count, g.blockSize);
      TimesMono(first + count, g.numBlocks, g.blockSize);
      var pieces, requests;
      ghost var want;
      pieces, requests, want, zero := Gather(first, count);
      var datas;
      ok, datas := FetchConsecutive(g, chunks, requests, v.packed, want);
      if !ok {
        return false, [], zero;
      }
      pieces := Fill(g, pieces, requests, datas, v.latest, first, want, zero);
      JoinShown(g, disk, v.latest, first, pieces);
      data := Join(pieces);
    }

    /**
     Reads any byte range of the volume. The empty read at offset 0 computes its
     last block by wrapping below zero, which the block size may or may not divide.
     */
    method ReadAt(offset: nat, length: nat) returns (r: ReadResult)
      requires Valid()
      ensures offset > size ==> r == ReadError("request too large")
      ensures offset <= size < offset + length ==> r == ReadError("request out of range")
      ensures offset + length == 0 ==> r == if Capacity(8) % g.blockSize == 0 then Data([], false)
              else ReadError("request block size")
      ensures 0 < offset + length <= size <= |disk| ==> r.Data? && r.bytes == disk[offset..offset + length]
      ensures offset + length <= size && length > 0 ==>
                (r.zero <==>
                   exists b :: offset / g.blockSize <= b <= (offset + length - 1) / g.blockSize && b !in v.latest)
    {
      hide Coherent, Durable, Recorded, Shows, BytesMatch, WellFormed, RefsExact, CheckpointOf;
      var bs := g.blockSize;
      if offset > size {
        return ReadError("request too large");
      }
      if offset + length > size {
        return ReadError("request out of range");
      }
      if offset + length == 0 {
        return if Capacity(8) % bs == 0 then Data([], false) else ReadError("request block size");
      }
      var firstBlock := offset / bs;
      var lastBlock := (offset + length - 1) / bs;
      ReadBounds(offset, length, g.numBlocks, bs);
      var ok, full, zero := ReadBlocks(firstBlock, lastBlock + 1 - firstBlock);
      if !ok {
        return ReadError("backend");
      }
      var inner := offset % bs;
      CutOut(disk, Times(firstBlock, bs), Times(lastBlock + 1, bs), inner, length);
      r := Data(full[inner..inner + length], zero);
    }

    // ----- Writing -----

    /**
     The bytes a write gives block b. A partial write starts from what the block
     holds now, and reading that fails when the volume ends inside the block.
     */
    method Rebuild(b: nat, writeStart: nat, patch: seq<byte>) returns (ok: bool, blockData: seq<byte>)
      requires Valid() && b < g.numBlocks && 0 < |patch| && writeStart + |patch| <= g.blockSize
      requires Times(b, g.blockSize) + writeStart + |patch| <= size
      ensures |Content(g.blockSize, v.latest, b)| == g.blockSize
      ensures ok <==> Times(b, g.blockSize) + g.blockSize <= size
      ensures ok ==> blockData == Splice(Content(g.blockSize, v.latest, b), writeStart, patch)
      ensures ok ==> Stores(Content(g.blockSize, v.latest, b), blockData, writeStart, patch)
    {
      hide Coherent, Durable, Recorded, Shows, BytesMatch, WellFormed, RefsExact, CheckpointOf, Splice, Stores,
          Capacity;
      var bs := g.blockSize;
      blockData := Zeros(bs);
      ContentOfBlock(g, disk, v.latest, b);
      if writeStart > 0 || writeStart + |patch| < bs {
        var existing := ReadAt(Times(b, bs), bs);
        if existing.ReadError? {
          return false, [];
        }
        blockData := existing.bytes;
      } else {
        WholeSplice(blockData, Content(bs, v.latest, b), patch);
      }
      SpliceStores(Content(bs, v.latest, b), writeStart, patch);
      blockData := Splice(blockData, writeStart, patch);
      ok := true;
    }

    /** Buffers one block write and publishes it to the store. */
    method Publish(x: Block, ghost writeStart: nat, ghost patch: seq<byte>)
      requires Valid() && x.block < g.numBlocks && x.len == g.blockSize && writeStart + |patch| <= g.blockSize
      requires x.seqNum == seqNum + 1 <= SeqLimit() && |Content(g.blockSize, v.latest, x.block)| == g.blockSize
      requires x.data == Splice(Content(g.blockSize, v.latest, x.block), writeStart, patch)
      modifies this`seqNum, this`writes, this`v, this`disk, store`entries
      ensures Valid()
      ensures Times(x.block, g.blockSize) + g.blockSize <= |old(disk)|
      ensures disk == Splice(old(disk), Times(x.block, g.blockSize) + writeStart, patch) && seqNum == old(seqNum) + 1
    {
      hide Coherent, Durable, Recorded, Shows, BytesMatch, WellFormed, RefsExact, CheckpointOf, Geometry.Ok, Written,
          Splice, Content, Times, Capacity;
      WriteCoherent(g, v, x);
      WriteDurable(g, v, x);
      WriteRecorded(g, v, x);
      WriteShows(g, disk, v.latest, x, writeStart, patch);
      seqNum := x.seqNum;
      writes := writes + [x];
      store.WriteWithSeqNum(x.block, x.data, x.seqNum);
      v := AfterWrite(v, x);
      disk := Splice(disk, Times(x.block, g.blockSize) + writeStart, patch);
    }

    /** One block's read-splice-publish cycle; it fails in a short last block or when SeqNums run out. */
    method WriteOneBlock(b: nat, writeStart: nat, patch: seq<byte>) returns (ok: bool)
      requires Valid() && b < g.numBlocks && 0 < |patch| && writeStart + |patch| <= g.blockSize
      requires Times(b, g.blockSize) + writeStart + |patch| <= size
      modifies this`seqNum, this`writes, this`v, this`disk, store`entries
      ensures Valid()
      ensures Times(b, g.blockSize) + g.blockSize <= |old(disk)|
      ensures ok ==> disk == Splice(old(disk), Times(b, g.blockSize) + writeStart, patch) && seqNum == old(seqNum) + 1
      ensures ok ==> Stores(old(disk), disk, Times(b, g.blockSize) + writeStart, patch)
      ensures !ok ==> disk == old(disk) && seqNum == old(seqNum)
      ensures ok <==> Times(b, g.blockSize) + g.blockSize <= size && old(seqNum) + 1 <= SeqLimit()
    {
      hide Coherent, Durable, Recorded, Shows, BytesMatch, WellFormed, RefsExact, CheckpointOf;
      ContentOfBlock(g, disk, v.latest, b);
      var rebuilt, blockData := Rebuild(b, writeStart, patch);
      if !rebuilt || seqNum + 1 > SeqLimit() {
        return false;
      }
      SpliceStores(disk, Times(b, g.blockSize) + writeStart, patch);
      Publish(Block(seqNum + 1, b, g.blockSize, blockData), writeStart, patch);
      ok := true;
    }

    /**
     Writes any byte range, block by block; on a failure the blocks already
     written stay written. As long as SeqNums last, a write inside the volume
     succeeds exactly when it ends before the volume's short last block, if any.
     */
    method WriteAt(offset: nat, data: seq<byte>) returns (error: Option<string>, done: nat)
      requires Valid()
      modifies this`seqNum, this`writes, this`v, this`disk, store`entries
      ensures Valid()
      ensures offset > size ==> error == Some("request too large")
      ensures offset <= size < offset + |data| ==> error == Some("request out of range")
      ensures offset + |data| <= size && |data| == 0 ==> error == Some("request buffer empty")
      ensures offset + |data| > size || |data| == 0 ==> disk == old(disk) && done == 0
      ensures offset + |data| <= size ==>
                size <= |old(disk)| && done <= |data| && disk == Splice(old(disk), offset, data[..done])
      ensures offset + |data| <= size ==> Stores(old(disk), disk, offset, data[..done])
      ensures error.None? ==> 0 < |data| && offset + |data| <= size && done == |data|
      ensures old(seqNum) <= seqNum <= old(seqNum) + |data|
      ensures 0 < |data| && offset + |data| <= size && old(seqNum) + |data| <= SeqLimit() ==>
                (error.None? <==> LastBlockFits(offset, |data|, size, g.blockSize))
    {
      hide Coherent, Durable, Recorded, Shows, BytesMatch, WellFormed, RefsExact, CheckpointOf, Times, Splice,
          Stores, BlockNumber;
      var bs := g.blockSize;
      done := 0;
      if offset > size {
        return Some("request too large"), 0;
      }
      if offset + |data| > size {
        return Some("request out of range"), 0;
      }
      SpliceNothing(disk, offset, data);
      SpliceStores(disk, offset, data[..0]);
      if |data| == 0 {
        return Some("request buffer empty"), 0;
      }
      var endOffset := offset + |data|;
      var startBlock, endBlock := BlockNumber(offset, bs), BlockNumber(endOffset - 1, bs);
      WriteBounds(offset, |data|, g.numBlocks, bs);
      var b := startBlock;
      ghost var d0, written := disk, 0;
      while b <= endBlock
        invariant Valid() && done <= |data|
        invariant disk == Splice(d0, offset, data[..done])
        invariant startBlock <= b <= endBlock + 1
        invariant done == if b == startBlock then 0 else if b <= endBlock then Times(b, bs) - offset else |data|
        invariant seqNum == old(seqNum) + written && written <= done
        invariant b > endBlock ==> Times(endBlock, bs) + bs <= size
      {
        SpanBounds(offset, |data|, bs, startBlock, endBlock, b);
        var blockStart := Times(b, bs);
        var writeStart := if offset > blockStart then offset - blockStart else 0;
        var writeEnd := if endOffset < blockStart + bs then endOffset - blockStart else bs;
        var next := blockStart + writeEnd - offset;
        var ok := WriteOneBlock(b, writeStart, data[done..next]);
        if !ok {
          SpliceStores(d0, offset, data[..done]);
          return Some("block write failed"), done;
        }
        SpliceExtend(d0, offset, data, done, next);
        done, b, written := next, b + 1, written + 1;
      }
      assert data[..done] == data;
      SpliceStores(d0, offset, data[..done]);
      error := None;
    }

    /** With nothing in memory, the block store and the map give every block the same location. */
    lemma DrainedAgree()
      requires Valid() && store.entries == map[]
      ensures store.Located() == blockMap.Contents()
    {
      hide WellFormed, RefsExact, Denote, Shows, BytesMatch, LiveOk, Coherent;
      LocatedIsMapped(g, v);
    }

    // ----- Flushing and draining -----

    /**
     Appends buffered writes to the WAL until one append fails; accepted says
     how many the file takes. A block with one flushed record leaves the buffer
     with all its records.
     */
    method Flush(accepted: nat) returns (ok: bool)
      requires Valid()
      modifies this`writes, this`wal, this`v, store`entries
      ensures Valid()
      ensures ok <==> accepted >= |old(writes)|
      ensures v == AfterFlush(old(v), if ok then |old(writes)| else accepted)
      ensures ok ==> writes == [] && v.stranded == old(v.stranded)
    {
      hide Sound, WellFormed, RefsExact, Geometry.Ok, Remaining, FlushedAll, Denote, NumberSet, Flushed, Dropped,
          Capacity, Times;
      var records, log := writes, wal;
      ghost var v0 := v;
      ok := accepted >= |records|;
      var n := if ok then |records| else accepted;
      FlushSound(g, crc, v0, chunks, live, disk, dirty, n);
      FlushedAllNext(store.entries, records, 0);
      for i := 0 to n
        invariant v == v0 && writes == records && wal == old(wal)
        invariant log == wal + records[..i] && store.entries == FlushedAll(v0.entries, records[..i])
      {
        log := log + [records[i]];
        var _ := store.MarkPending(records[i].block);
        FlushedAllNext(v0.entries, records, i);
      }
      FlushWhole(v0);
      wal, writes := log, Remaining(records, NumberSet(records[..n]));
      v := AfterFlush(v0, n);
    }

    /** Publishes one run of an uploaded chunk, unless the map already has something as new. */
    method PublishRun(e: Extent, ghost drained: set<Block>) returns (accepted: bool)
      requires Valid() && dirty && e.Ok() && |e.seqNums| == e.num
      requires !Rejects(blockMap.blockLookup, e) ==>
                 Publishable(g, v, Cells(e, g.Stride()), drained) && CellsLogged(v, Cells(e, g.Stride()))
      modifies blockMap, store, this`v
      ensures Valid()
      ensures accepted <==> !Rejects(old(blockMap.blockLookup), e)
      ensures v == if accepted then AfterPublish(old(v), Cells(e, g.Stride()), drained) else old(v)
      ensures !accepted && blockMap.gcEnabled ==> e.chunk in blockMap.gcRefcount
    {
      hide Sound, WellFormed, RefsExact, Geometry.Ok, Publishable, CellsLogged, Placed, Chosen, Eligible, Denote,
          Cells, Restrict, Gone, Rejects, Inserted, RangeBlocks, Capacity, Times;
      var covering := blockMap.ResolveBlockLookup(e.start);
      RejectsByHead(blockMap.blockLookup, g.Stride(), e, covering);
      if covering.Some? && covering.value.0.seqNums[0] >= e.seqNums[0] {
        blockMap.TrackUnreferenced(e.chunk);
        return false;
      }
      PublishSound(g, crc, v, chunks, live, disk, Cells(e, g.Stride()), drained);
      RangeChosen(v.entries, e, g.Stride(), Eligible(v.entries, RangeBlocks(e), e.seqNums));
      RangePlaced(v.entries, e, g.Stride(), Eligible(v.entries, RangeBlocks(e), e.seqNums));
      blockMap.InsertCoalesced(e);
      var _ := store.MarkPersistedRange(RangeBlocks(e), e.chunk, e.offset, e.seqNums);
      v := AfterPublish(v, Cells(e, g.Stride()), drained);
      accepted := true;
    }

    /**
     Uploads one chunk under a fresh id and publishes its runs. Setting dirty
     first is the same as setting it last: the map's lock is held throughout.
     */
    method CreateChunkFile(blocks: seq<Block>, putOk: bool, ghost base: nat, ghost sorted: seq<Block>,
                           ghost done: set<nat>) returns (ok: bool)
      requires Valid() && PackedOk(g, blocks) && Fresh(sorted, done, blocks) && Draining(v, base, sorted, done)
      modifies blockMap, store, this`v, this`dirty, this`objectNum, this`chunks
      ensures Valid()
      ensures ok <==> putOk && old(objectNum) < Capacity(8)
      ensures objectNum == if old(objectNum) < Capacity(8) then old(objectNum) + 1 else old(objectNum)
      ensures chunks == if ok then old(chunks)[old(objectNum) := ChunkBytes(g, blocks)] else old(chunks)
      ensures Draining(v, base, sorted, if ok then done + NumberSet(blocks) else done)
      ensures v.stranded == if ok then old(v.stranded) - SetOf(blocks) else old(v.stranded)
      ensures OnDiskSame(old(v), v)
    {
      hide Sound, WellFormed, RefsExact, Geometry.Ok, Draining, Fresh, PackedOk, Denote, ChunkBytes, Publishing,
          NumberSet, SetOf, Genuine, Capacity, Times;
      if objectNum == Capacity(8) {
        return false;
      }
      var id := objectNum;
      if !putOk {
        BurnSound(g, crc, v, chunks, live, disk, dirty);
        DrainingBurns(v, base, sorted, done);
        objectNum, v := objectNum + 1, v.(objectNum := v.objectNum + 1);
        return false;
      }
      ghost var stranded := v.stranded;
      FreshGenuine(v, base, sorted, done, blocks);
      SoundDirty(g, crc, v, chunks, live, disk, dirty);
      UploadSound(g, crc, v, chunks, live, disk, blocks);
      PublishingStarts(v, base, sorted, done, blocks);
      chunks, objectNum, dirty := chunks[id := ChunkBytes(g, blocks)], objectNum + 1, true;
      v := AfterUpload(v, blocks);
      PublishChunk(id, blocks, base, sorted, done, stranded);
      PublishingEnds(v, base, sorted, done, id, blocks, stranded);
      ok := true;
    }

    /** Publishes a chunk run by run; none of a drain's own runs is ever rejected. */
    method PublishChunk(id: nat, blocks: seq<Block>, ghost base: nat, ghost sorted: seq<Block>, ghost done: set<nat>,
                        ghost stranded: set<Block>)
      requires Valid() && dirty && Fresh(sorted, done, blocks)
      requires Publishing(v, base, sorted, done, id, blocks, 0, stranded)
      modifies blockMap, store, this`v
      ensures Valid() && Publishing(v, base, sorted, done, id, blocks, |blocks|, stranded)
      ensures OnDiskSame(old(v), v)
    {
      hide Sound, WellFormed, RefsExact, Geometry.Ok, Fresh, Publishable, CellsLogged, Denote, Cells, Rejects,
          ChunkRun, Publishing, Restrict, Gone, ConsecutiveRun;
      var i := 0;
      while i < |blocks|
        invariant 0 <= i <= |blocks| && Valid()
        invariant Publishing(v, base, sorted, done, id, blocks, i, stranded) && OnDiskSame(old(v), v)
      {
        var j := NextBreak(blocks, i);
        NextRun(g, v, blockMap.blockLookup, base, sorted, done, id, blocks, i, j, stranded);
        var _ := PublishRun(ChunkRun(g, id, blocks, i, j), SetOf(blocks[i..j]));
        i := j;
      }
    }

    /** The size of the open WAL segment. */
    function WalSize(): nat
      reads this
    {
      FILE_HEADER + |wal| * RecordSize(g.cipher, g.blockSize)
    }

    /** It is the length of the segment's file. */
    lemma SegmentBytes()
      requires Valid()
      ensures g.cipher.Opens(g.blockSize) && Wal.AllFit(wal, g.blockSize)
      ensures WalSize() == FILE_HEADER + |EncodeLog(g.cipher, crc, wal, g.blockSize)|
    {
      hide Durable, Recorded, BytesMatch, LiveOk, Shows, EncodeLog, Capacity;
      LogFits();
      LogBytes(g.cipher, crc, wal, g.blockSize);
      TimesIsProduct(|wal|, RecordSize(g.cipher, g.blockSize));
    }

    lemma LogFits()
      requires Valid()
      ensures Wal.AllFit(wal, g.blockSize)
    {
      hide Durable, Recorded, BytesMatch, LiveOk, Shows;
      SeqLimitFits();
      Capacities();
      forall i | 0 <= i < |wal| ensures Fits(wal[i], g.blockSize) {
        assert v.Log()[i] == wal[i];
      }
    }

    /** Hands the chunks to the upload workers, which finish them in any order. */
    method UploadAll(jobs: seq<seq<Block>>, fate: nat -> Fate, ghost base: nat, ghost sorted: seq<Block>,
                     ghost cuts: seq<nat>) returns (ok: bool)
      requires Valid() && JobsOf(g, sorted, jobs, cuts) && Draining(v, base, sorted, {})
      modifies blockMap, store, this`v, this`dirty, this`objectNum, this`chunks
      ensures Valid()
      ensures ok ==> v.stranded <= old(v.stranded) - SetOf(sorted)
      ensures v.stranded <= old(v.stranded) && OnDiskSame(old(v), v)
      ensures ok ==> forall k :: 0 <= k < |jobs| ==> fate(k).Stored?
      ensures AllStored(fate, |jobs|) && old(objectNum) + |jobs| <= Capacity(8) ==> ok
    {
      hide Sound, WellFormed, RefsExact, Geometry.Ok, Draining, JobsOf, Uploading, Fresh, NumberSet, SetOf, Span,
          ChunkBytes, Capacity;
      var todo := Span(0, |jobs|);
      SpanSize(0, |jobs|);
      ghost var room := old(objectNum) + |jobs| <= Capacity(8);
      ghost var done, drained, stranded := {}, {}, v.stranded;
      UploadingStarts(v, base, sorted, jobs, todo);
      ok := true;
      while todo != {}
        invariant Valid() && Uploading(v, base, sorted, jobs, todo, done, drained, stranded, ok)
        invariant OnDiskSame(old(v), v)
        invariant forall k :: k in todo ==> 0 <= k < |jobs|
        invariant ok ==> forall k :: 0 <= k < |jobs| && k !in todo ==> fate(k).Stored?
        invariant objectNum + |todo| <= old(objectNum) + |jobs|
        invariant AllStored(fate, |jobs|) && room ==> ok
      {
        var k :| k in todo;
        ghost var before := v;
        UploadingHas(g, v, base, sorted, jobs, cuts, todo, done, drained, stranded, ok, k);
        var stored := false;
        if !fate(k).NotSubmitted? {
          stored := CreateChunkFile(jobs[k], fate(k).Stored?, base, sorted, done);
        }
        UploadingNext(g, before, v, base, sorted, jobs, cuts, todo, done, drained, stranded, ok, k, stored);
        if stored {
          done, drained := done + NumberSet(jobs[k]), drained + SetOf(jobs[k]);
        } else {
          ok := false;
        }
        todo := todo - {k};
      }
      UploadingShrinks(v, base, sorted, jobs, done, drained, stranded, ok);
      if ok {
        UploadingEnds(g, v, base, sorted, jobs, cuts, done, drained, stranded);
      }
    }

    /** Consolidates the WAL segment into chunks on the backend and starts a new segment. */
    method WriteWALToChunk(force: bool, fate: nat -> Fate) returns (ok: bool)
      requires Valid()
      modifies blockMap, store, this`v, this`dirty, this`objectNum, this`chunks, this`wal
      ensures Valid()
      ensures ok ==> v.stranded <= old(v.stranded)
      ensures Wal.AllFit(old(wal), g.blockSize)
      ensures if force || FILE_HEADER + |EncodeLog(g.cipher, crc, old(wal), g.blockSize)| >= g.objBlockSize
              then wal == [] && OnDiskSame(old(v).(retained := old(v).retained + old(wal)), v)
              else ok && v == old(v)
      ensures AllStored(fate, |old(wal)|) && old(objectNum) + |old(wal)| <= Capacity(8) ==> ok
    {
      hide Sound, WellFormed, RefsExact, Geometry.Ok, Draining, JobsOf, SetOf, Consolidated, Packing, JobOk, Capacity;
      SegmentBytes();
      if !force && WalSize() < g.objBlockSize {
        return true;
      }
      var sorted := Consolidate(wal);
      RotateSound(g, crc, v, chunks, live, disk, dirty, sorted);
      ConsolidatedSize(wal, sorted);
      wal, v := [], AfterRotate(v, sorted);
      ghost var cuts;
      var jobs;
      jobs, cuts := PackChunks(g, sorted);
      PackedJobs(g, sorted, jobs, cuts);
      JobsFew(sorted, jobs, cuts);
      ok := UploadAll(jobs, fate, objectNum, sorted, cuts);
    }

    // ----- Checkpointing -----

    /** Writes the live checkpoint, unless nothing changed since the last one. */
    method SaveLiveCheckpoint(timestamp: nat, putOk: bool) returns (ok: bool)
      requires Valid() && timestamp < Capacity(8)
      modifies this`live, this`dirty, this`v
      ensures Valid()
      ensures ok <==> !old(dirty) || putOk
      ensures ok ==> !dirty && v == if old(dirty) then AfterSave(old(v)) else old(v)
      ensures !ok ==> dirty && v == old(v) && live == old(live)
    {
      hide Sound, WellFormed, RefsExact, Denote, Encodable, CheckpointOf;
      if !dirty {
        return true;
      }
      SeqLimitFits();
      SoundEncodable(g, crc, v, chunks, live, disk, dirty);
      var raw := Serialize(crc, blockMap.blockLookup, g.Stride(), g.version, timestamp);
      if !putOk {
        return false;
      }
      SaveSound(g, crc, v, chunks, live, disk, dirty, raw);
      live, dirty, v := Some(raw), false, AfterSave(v);
      ok := true;
    }

    /** A plaintext volume counts as far as a record's field goes, an encrypted one as far as a nonce. */
    lemma SeqLimitFits()
      ensures SeqLimit() + 1 == Capacity(if g.cipher.Plain? then 8 else 7) <= Capacity(8)
    {
      Capacities();
    }

    /**
     Flush, consolidate, checkpoint. After a clean drain the live checkpoint is
     the map, and if no earlier failure stranded a segment nothing acknowledged
     is left in memory only.
     */
    method DrainToBackend(accepted: nat, fate: nat -> Fate, timestamp: nat, putOk: bool) returns (ok: bool)
      requires Valid() && timestamp < Capacity(8)
      modifies blockMap, store, this`writes, this`wal, this`v, this`dirty, this`objectNum, this`chunks, this`live
      ensures Valid()
      ensures ok ==> !dirty && v.stranded <= old(v.stranded)
      ensures ok && old(v.stranded) == {} ==> store.entries == map[] && writes == [] && wal == []
      ensures ok && old(v.stranded) == {} && old(v.settled).Some? ==> v.stranded == {} && v.settled.Some?
      ensures ok ==> v.retained == old(v.retained) + old(wal) + old(writes) && v.dropped == old(v.dropped)
      ensures AllWell(|old(writes)|, |old(wal)|, old(objectNum), accepted, fate, putOk) ==> ok
    {
      hide Sound, WellFormed, RefsExact, Denote, FlushedAll, Remaining, NumberSet, Capacity;
      var flushed := Flush(accepted);
      if !flushed {
        return false;
      }
      var stored := WriteWALToChunk(true, fate);
      if !stored {
        return false;
      }
      ok := SaveLiveCheckpoint(timestamp, putOk);
      if ok && v.stranded == {} {
        DrainedSound(g, crc, v, chunks, live, disk, dirty);
      }
    }

    // ----- Chunk garbage collection -----

    /** Deletes one chunk nothing points into. */
    method DeleteChunk(id: nat)
      requires Valid() && !dirty && blockMap.gcEnabled && Count(blockMap.gcRefcount, id) == 0
      modifies blockMap`gcRefcount, this`chunks, this`v
      ensures Valid()
      ensures chunks == old(chunks) - {id} && blockMap.gcRefcount == old(blockMap.gcRefcount) - {id}
      ensures v.mapped == old(v.mapped)
    {
      hide Sound, WellFormed, Denote, Geometry.Ok;
      UnreferencedIsUnmapped(blockMap.blockLookup, blockMap.gcRefcount, g.Stride(), id);
      SweepSound(g, crc, v, chunks, live, disk, id);
      blockMap.Untrack(id);
      chunks, v := chunks - {id}, v.(present := v.present - {id});
    }

    /** Deletes the given chunks one by one; the ones the backend refuses stay tracked. */
    method DeleteChunkObjects(ids: set<nat>, refuses: nat -> bool) returns (swept: set<nat>)
      requires Valid() && !dirty && blockMap.gcEnabled && Unreferenced(blockMap.gcRefcount, ids)
      modifies blockMap`gcRefcount, this`chunks, this`v
      ensures Valid()
      ensures swept == set id | id in ids && !refuses(id)
      ensures chunks == old(chunks) - swept && blockMap.gcRefcount == old(blockMap.gcRefcount) - swept
      ensures v.mapped == old(v.mapped)
    {
      hide Sound, WellFormed, Denote, Geometry.Ok, RefsExact, Count, Unreferenced;
      var todo := ids;
      ghost var refs, before := blockMap.gcRefcount, chunks;
      swept := {};
      while todo != {}
        invariant Valid() && todo <= ids && swept == set id | id in ids - todo && !refuses(id)
        invariant blockMap.gcRefcount == refs - swept && chunks == before - swept && v.mapped == old(v.mapped)
      {
        var id :| id in todo;
        StillUnreferenced(refs, swept, ids, id);
        todo := todo - {id};
        if !refuses(id) {
          DeleteChunk(id);
          swept := swept + {id};
          assert chunks == before - swept;
        }
      }
    }

    /**
     Deletes every unreferenced chunk in [floor, objectNum), listed ones
     included, as far as the backend obeys. Nothing the map points into goes.
     */
    method SweepChunks(floor: nat, refuses: nat -> bool) returns (swept: set<nat>)
      requires Valid() && !dirty && blockMap.gcEnabled
      modifies blockMap`gcRefcount, this`chunks, this`v
      ensures Valid() && chunks == old(chunks) - swept && v.mapped == old(v.mapped)
      ensures forall id, b :: id in swept && b in v.mapped ==> v.mapped[b].chunk != id
      ensures forall id :: id in swept ==> floor <= id < objectNum
      ensures forall id :: id in chunks && floor <= id < objectNum && !refuses(id) ==>
                Count(blockMap.gcRefcount, id) > 0
    {
      hide Sound, WellFormed, Denote, Geometry.Ok, RefsExact;
      blockMap.TrackAll(chunks.Keys);
      var candidates := Candidates(blockMap.gcRefcount, floor, objectNum);
      forall id | id in candidates ensures forall b :: b in v.mapped ==> v.mapped[b].chunk != id {
        MapUnreferenced(id);
      }
      swept := DeleteChunkObjects(candidates, refuses);
    }

    lemma MapUnreferenced(id: nat)
      requires Valid() && blockMap.gcEnabled && Count(blockMap.gcRefcount, id) == 0
      ensures forall b :: b in v.mapped ==> v.mapped[b].chunk != id
    {
      UnreferencedIsUnmapped(blockMap.blockLookup, blockMap.gcRefcount, g.Stride(), id);
    }

    /** A drain, and only after it succeeded, a sweep: nothing the live checkpoint points into goes. */
    method RunGCSweep(accepted: nat, fate: nat -> Fate, timestamp: nat, putOk: bool, floor: nat, refuses: nat -> bool)
      returns (drained: bool, swept: set<nat>)
      requires Valid() && timestamp < Capacity(8)
      modifies blockMap, store, this`writes, this`wal, this`v, this`dirty, this`objectNum, this`chunks, this`live
      ensures Valid()
      ensures AllWell(|old(writes)|, |old(wal)|, old(objectNum), accepted, fate, putOk) ==> drained
      ensures drained ==> !dirty && Current(v)
      ensures !drained || !blockMap.gcEnabled ==> swept == {}
      ensures forall id, b :: id in swept && b in v.mapped ==> v.mapped[b].chunk != id
      ensures drained && blockMap.gcEnabled ==>
                forall id :: id in chunks && floor <= id < objectNum && !refuses(id) ==>
                    Count(blockMap.gcRefcount, id) > 0
    {
      hide Coherent, BytesMatch, LiveOk, Shows, WellFormed, Denote, Geometry.Ok, RefsExact, Count, Capacity;
      drained := DrainToBackend(accepted, fate, timestamp, putOk);
      if !drained || !blockMap.gcEnabled {
        return drained, {};
      }
      swept := SweepChunks(floor, refuses);
    }

    // ----- Reopening -----

    /** Rebuilds the map from the live checkpoint; with none, the volume is empty. */
    method LoadLiveCheckpoint(cfgObjectNum: nat) returns (ok: bool, m: Index, next: nat)
      requires Valid() && !dirty && cfgObjectNum <= Capacity(8)
      ensures ok && WellFormed(m) && Denote(m, g.Stride()) == v.mapped
      ensures cfgObjectNum <= next <= Capacity(8) && forall b :: b in v.mapped ==> v.mapped[b].chunk < next
    {
      hide Sound, WellFormed, RefsExact, Denote, Geometry.Ok, RunsFit, Walk, Collect, FlatMeaning;
      SavedReads(g, crc, v, chunks, live, disk);
      ok, m, next := true, map[], cfgObjectNum;
      EmptyIndex(g.Stride());
      if live.Some? {
        ok, m, next := LoadCheckpoint(crc, live.value, g.version, g.Stride(), cfgObjectNum);
      }
    }

    lemma Sizes()
      requires Valid()
      ensures g.blockSize > 0 && size <= |disk|
    {
    }

    lemma MappedBelowSeqNum()
      requires Valid()
      ensures forall b :: b in v.mapped ==> v.mapped[b].seqNum <= seqNum
    {
      forall b | b in v.mapped ensures v.mapped[b].seqNum <= seqNum {
        MapEncodable(g, v, b);
      }
    }

    /**
     A new process on a cleanly drained volume; the saved counters may be stale.
     The content is the old one in any case. The invariants that later drains rely
     on hold exactly when the saved SeqNum is not behind the map.
     */
    method Reload(cfgSeqNum: nat, cfgObjectNum: nat)
      requires Valid() && !dirty && store.entries == map[]
      requires cfgSeqNum <= SeqLimit() && cfgObjectNum <= Capacity(8)
      modifies blockMap, store, this`seqNum, this`objectNum, this`writes, this`wal, this`v
      ensures Valid() <==> forall b :: b in old(v.mapped) ==> old(v.mapped)[b].seqNum <= cfgSeqNum
      ensures Parts() && Agrees() && v == AfterReload(old(v), cfgSeqNum, objectNum)
      ensures seqNum == cfgSeqNum && objectNum >= cfgObjectNum
      ensures store.entries == map[] && store.Located() == blockMap.Contents() == old(v.mapped)
      ensures blockMap.gcEnabled ==> forall id :: id in blockMap.gcRefcount ==> blockMap.gcRefcount[id] > 0
    {
      hide Sound, WellFormed, Denote, Geometry.Ok;
      var _, m, next := LoadLiveCheckpoint(cfgObjectNum);
      ReloadSound(g, crc, v, chunks, live, disk, cfgSeqNum, next);
      blockMap.Load(m);
      store.Load(m);
      seqNum, objectNum, writes, wal := cfgSeqNum, next, [], [];
      v := AfterReload(v, cfgSeqNum, next);
    }
  }

  lemma EmptyIndex(stride: nat)
    ensures WellFormed(map[]) && Denote(map[], stride) == map[]
  {
    SameMap(Denote(map[], stride), map[]);
  }

  /** After i blocks: each has its bytes already, or a request that will bring them. */
  ghost predicate Gathered(g: Geometry, latest: map<nat, Block>, first: nat, i: nat,
                           pieces: seq<seq<byte>>, requests: seq<Request>, want: seq<Block>, zero: bool)
  {
    && |pieces| == i && |want| == |requests|
    && (forall k :: 0 <= k < |requests| ==> WantsLatest(latest, first, i, requests[k], want[k]))
    && (forall x :: 0 <= x < i ==> pieces[x] == Content(g.blockSize, latest, first + x) || x in Positions(requests))
    && (zero <==> exists b :: first <= b < first + i && b !in latest)
  }

  ghost predicate WantsLatest(latest: map<nat, Block>, first: nat, i: nat, r: Request, x: Block)
  {
    r.position < i && first + r.position in latest && x == latest[first + r.position]
  }

  lemma GatherData(g: Geometry, latest: map<nat, Block>, first: nat, i: nat, pieces: seq<seq<byte>>,
                   requests: seq<Request>, want: seq<Block>, zero: bool, data: seq<byte>)
    requires Gathered(g, latest, first, i, pieces, requests, want, zero)
    requires first + i in latest && data == latest[first + i].data
    ensures Gathered(g, latest, first, i + 1, pieces + [data], requests, want, zero)
  {
    assert forall k :: 0 <= k < |requests| ==> WantsLatest(latest, first, i, requests[k], want[k]);
  }

  lemma GatherZero(g: Geometry, latest: map<nat, Block>, first: nat, i: nat, pieces: seq<seq<byte>>,
                   requests: seq<Request>, want: seq<Block>, zero: bool)
    requires Gathered(g, latest, first, i, pieces, requests, want, zero) && first + i !in latest
    ensures Gathered(g, latest, first, i + 1, pieces + [Zeros(g.blockSize)], requests, want, true)
  {
    assert forall k :: 0 <= k < |requests| ==> WantsLatest(latest, first, i, requests[k], want[k]);
  }

  lemma GatherRequest(g: Geometry, latest: map<nat, Block>, first: nat, i: nat, pieces: seq<seq<byte>>,
                      requests: seq<Request>, want: seq<Block>, zero: bool, r: Request)
    requires Gathered(g, latest, first, i, pieces, requests, want, zero) && first + i in latest && r.position == i
    ensures Gathered(g, latest, first, i + 1, pieces + [Zeros(g.blockSize)], requests + [r],
            want + [latest[first + i]], zero)
  {
    PositionsGrow(requests, r);
    var requests', want' := requests + [r], want + [latest[first + i]];
    forall k | 0 <= k < |requests'| ensures WantsLatest(latest, first, i + 1, requests'[k], want'[k]) {
      assert k < |requests| ==> WantsLatest(latest, first, i, requests[k], want[k]);
    }
  }

  function Positions(requests: seq<Request>): (s: set<nat>)
    ensures forall k :: 0 <= k < |requests| ==> requests[k].position in s
  {
    set k | 0 <= k < |requests| :: requests[k].position
  }

  lemma PositionsGrow(requests: seq<Request>, r: Request)
    ensures Positions(requests + [r]) == Positions(requests) + {r.position}
  {
    var all := requests + [r];
    forall x | x in Positions(requests) + {r.position} ensures x in Positions(all) {
      if x in Positions(requests) {
        var k :| 0 <= k < |requests| && requests[k].position == x;
        assert all[k].position == x;
      } else {
        assert all[|requests|].position == x;
      }
    }
  }

  /** Puts each fetched block where its request asked for it. */
  method Fill(g: Geometry, pieces: seq<seq<byte>>, requests: seq<Request>, datas: seq<seq<byte>>,
              ghost latest: map<nat, Block>, ghost first: nat, ghost want: seq<Block>, ghost zero: bool)
    returns (out: seq<seq<byte>>)
    requires Gathered(g, latest, first, |pieces|, pieces, requests, want, zero)
    requires |datas| == |requests| && forall k :: 0 <= k < |requests| ==> datas[k] == want[k].data
    ensures |out| == |pieces|
    ensures forall i :: 0 <= i < |out| ==> out[i] == Content(g.blockSize, latest, first + i)
  {
    out := pieces;
    for k := 0 to |requests|
      invariant |out| == |pieces|
      invariant forall i :: 0 <= i < |out| ==>
                out[i] == Content(g.blockSize, latest, first + i) || i in Positions(requests[k..])
    {
      assert WantsLatest(latest, first, |pieces|, requests[k], want[k]);
      PositionsShrink(requests, k);
      out := out[requests[k].position := datas[k]];
    }
  }

  lemma PositionsShrink(requests: seq<Request>, k: nat)
    requires k < |requests|
    ensures Positions(requests[k..]) == Positions(requests[k + 1..]) + {requests[k].position}
  {
    var a, c := requests[k..], requests[k + 1..];
    forall x | x in Positions(a) ensures x in Positions(c) + {requests[k].position} {
      var i :| 0 <= i < |a| && a[i].position == x;
      if i > 0 {
        assert c[i - 1].position == x;
      }
    }
    forall x | x in Positions(c) + {requests[k].position} ensures x in Positions(a) {
      if x in Positions(c) {
        var i :| 0 <= i < |c| && c[i].position == x;
        assert a[i + 1].position == x;
      } else {
        assert a[0].position == x;
      }
    }
  }

  lemma JoinShown(g: Geometry, disk: seq<byte>, latest: map<nat, Block>, first: nat, pieces: seq<seq<byte>>)
    requires Shows(g, disk, latest) && first + |pieces| <= g.numBlocks
    requires Times(first, g.blockSize) <= Times(first + |pieces|, g.blockSize) <= |disk|
    requires forall i :: 0 <= i < |pieces| ==> pieces[i] == Content(g.blockSize, latest, first + i)
    ensures Join(pieces) == disk[Times(first, g.blockSize)..Times(first + |pieces|, g.blockSize)]
  {
    forall i | 0 <= i < |pieces| ensures IsBlock(disk, first + i, g.blockSize, pieces[i]) {
      assert IsBlock(disk, first + i, g.blockSize, Content(g.blockSize, latest, first + i));
    }
    JoinBlocks(pieces, disk, first, g.blockSize);
  }

  /** The blocks a byte range touches, and that they cover it. */
  lemma ReadBounds(offset: nat, length: nat, n: nat, bs: nat)
    requires bs > 0 && 0 < offset + length <= Times(n, bs)
    ensures offset / bs <= (offset + length - 1) / bs + 1 <= n
    ensures Times(offset / bs, bs) + offset % bs == offset
    ensures offset + length <= Times((offset + length - 1) / bs + 1, bs)
  {
    var last := offset + length - 1;
    DivTimes(offset, bs);
    DivTimes(last, bs);
    BlockNumberBound(last, n, bs);
    if offset / bs > last / bs + 1 {
      TimesMono(last / bs + 2, offset / bs, bs);
    }
  }

  lemma CutOut(s: seq<byte>, lo: nat, hi: nat, inner: nat, length: nat)
    requires lo + inner + length <= hi <= |s|
    ensures s[lo..hi][inner..inner + length] == s[lo + inner..lo + inner + length]
  {
    SubSlice(s, lo, hi - lo, inner, length);
  }

  lemma ContentOfBlock(g: Geometry, disk: seq<byte>, latest: map<nat, Block>, b: nat)
    requires Shows(g, disk, latest) && b < g.numBlocks
    ensures Times(b, g.blockSize) + g.blockSize <= |disk|
    ensures disk[Times(b, g.blockSize)..Times(b, g.blockSize) + g.blockSize] == Content(g.blockSize, latest, b)
    ensures |Content(g.blockSize, latest, b)| == g.blockSize
  {
    assert IsBlock(disk, b, g.blockSize, Content(g.blockSize, latest, b));
  }

  /** Every write inside the volume can succeed exactly when the last block is not short. */
  lemma ShortLastBlock(size: nat, bs: nat)
    requires bs > 0
    ensures size % bs == 0 <==>
            forall offset: nat, length: nat :: 0 < length && offset + length <= size ==>
                LastBlockFits(offset, length, size, bs)
  {
    DivTimes(size, bs);
    if size % bs == 0 {
      forall offset: nat, length: nat | 0 < length && offset + length <= size
        ensures LastBlockFits(offset, length, size, bs)
      {
        DivTimes(offset + length - 1, bs);
        BlockNumberBound(offset + length - 1, size / bs, bs);
        TimesMono((offset + length - 1) / bs + 1, size / bs, bs);
      }
    } else {
      DivTimes(size - 1, bs);
      SameBlock(size, bs);
      assert !LastBlockFits(size - 1, 1, size, bs);
    }
  }

  ghost predicate LastBlockFits(offset: nat, length: nat, size: nat, bs: nat)
    requires bs > 0 && length > 0
  {
    Times(BlockNumber(offset + length - 1, bs), bs) + bs <= size
  }

  lemma SameBlock(size: nat, bs: nat)
    requires bs > 0 && size % bs != 0
    ensures (size - 1) / bs == size / bs
  {
    DivTimes(size, bs);
    DivTimes(size - 1, bs);
    var q, q' := size / bs, (size - 1) / bs;
    if q' < q {
      TimesMono(q' + 1, q, bs);
    } else if q < q' {
      TimesMono(q + 1, q', bs);
    }
  }

  ghost predicate BlockOf(x: nat, bs: nat, b: nat)
  {
    Times(b, bs) <= x < Times(b, bs) + bs
  }

  function BlockNumber(x: nat, bs: nat): nat
    requires bs > 0
  {
    x / bs
  }

  lemma WriteBounds(offset: nat, length: nat, n: nat, bs: nat)
    requires bs > 0 && length > 0 && offset + length <= Times(n, bs)
    ensures BlockNumber(offset, bs) <= BlockNumber(offset + length - 1, bs) < n
    ensures BlockOf(offset, bs, BlockNumber(offset, bs))
    ensures BlockOf(offset + length - 1, bs, BlockNumber(offset + length - 1, bs))
  {
    BlockNumberBound(offset + length - 1, n, bs);
    DivTimes(offset, bs);
    DivTimes(offset + length - 1, bs);
    if offset / bs > (offset + length - 1) / bs {
      TimesMono((offset + length - 1) / bs + 1, offset / bs, bs);
    }
  }

  lemma SpliceNothing(s: seq<byte>, at: nat, data: seq<byte>)
    requires at <= |s|
    ensures Splice(s, at, data[..0]) == s
  {
  }

  /** Block b of a write: where it starts and ends relative to the written range. */
  lemma SpanBounds(offset: nat, length: nat, bs: nat, startBlock: nat, endBlock: nat, b: nat)
    requires length > 0 && BlockOf(offset, bs, startBlock) && BlockOf(offset + length - 1, bs, endBlock)
    requires startBlock <= b <= endBlock
    ensures Times(b, bs) < offset + length
    ensures b == startBlock ==> Times(b, bs) <= offset < Times(b, bs) + bs
    ensures b > startBlock ==> offset < Times(b, bs)
    ensures b < endBlock ==> Times(b + 1, bs) < offset + length
    ensures b == endBlock ==> offset + length <= Times(b, bs) + bs
    ensures Times(b + 1, bs) == Times(b, bs) + bs
  {
    TimesMono(b, endBlock, bs);
    if b > startBlock {
      TimesMono(startBlock + 1, b, bs);
    }
    if b < endBlock {
      TimesMono(b + 1, endBlock, bs);
    }
  }
}
