/** Replaying leftover log files after a crash. */
module Recovery {
  import opened Bytes
  import opened Extents
  import opened BlocksToObjectMap
  import opened Sealing
  import opened Sorting
  import opened Blocks
  import opened Chunks
  import opened Checkpoint
  import opened Wal
  import opened Durability
  import opened Drain
  import opened Replay

  // ----- Reading the files -----

  /**
   What the readable files hold, in file order. A file with a bad header is left
   for later; a damaged encrypted one stops the recovery.
   */
  function AllRecovered(c: Cipher, crc: Checksum, files: seq<seq<byte>>, version: nat,
                        blockSize: nat): Result<seq<Block>>
  {
    if |files| == 0 then Ok([])
    else
      var n := |files| - 1;
      match (AllRecovered(c, crc, files[..n], version, blockSize), FileRecords(c, crc, files[n], version, blockSize))
      case (Err(e), _) => Err(e)
      case (Ok(all), Ok(more)) => Ok(all + more)
      case (Ok(all), Err(e)) => if e == "integrity" then Err(e) else Ok(all)
  }

  lemma RecoveredFails(c: Cipher, crc: Checksum, files: seq<seq<byte>>, version: nat, blockSize: nat, k: nat)
    requires k <= |files| && AllRecovered(c, crc, files[..k], version, blockSize).Err?
    ensures AllRecovered(c, crc, files, version, blockSize).Err?
    decreases |files|
  {
    if k < |files| {
      var n := |files| - 1;
      assert files[..n][..k] == files[..k];
      RecoveredFails(c, crc, files[..n], version, blockSize, k);
    } else {
      assert files[..k] == files;
    }
  }

  /** The records of the files one after the other; a file without a header of this volume holds none. */
  ghost predicate FilesHold(c: Cipher, crc: Checksum, files: seq<seq<byte>>, version: nat, blockSize: nat,
                            all: seq<Block>)
    decreases |files|, 1
  {
    if |files| == 0 then all == []
    else exists k: nat :: LastHolds(c, crc, files, version, blockSize, all, k)
  }

  ghost predicate LastHolds(c: Cipher, crc: Checksum, files: seq<seq<byte>>, version: nat, blockSize: nat,
                            all: seq<Block>, k: nat)
    requires |files| > 0
    decreases |files|, 0
  {
    var n := |files| - 1;
    && k <= |all| && FilesHold(c, crc, files[..n], version, blockSize, all[..k])
    && (if HasFileHeader(c, files[n], version, blockSize) then FileHolds(c, crc, files[n], version, blockSize, all[k..])
        else k == |all|)
  }

  /** Recovery reads exactly what the files hold, in terms of their bytes. */
  lemma {:induction false} RecoveredExact(c: Cipher, crc: Checksum, files: seq<seq<byte>>, version: nat, blockSize: nat,
                                          all: seq<Block>)
    ensures AllRecovered(c, crc, files, version, blockSize) == Ok(all)
       <==> FilesHold(c, crc, files, version, blockSize, all)
    decreases |files|
  {
    if |files| > 0 {
      if AllRecovered(c, crc, files, version, blockSize) == Ok(all) {
        RecoveredHolds(c, crc, files, version, blockSize, all);
      }
      if FilesHold(c, crc, files, version, blockSize, all) {
        HeldRecovered(c, crc, files, version, blockSize, all);
      }
    }
  }

  lemma {:induction false} RecoveredHolds(c: Cipher, crc: Checksum, files: seq<seq<byte>>, version: nat,
                                          blockSize: nat, all: seq<Block>)
    requires |files| > 0 && AllRecovered(c, crc, files, version, blockSize) == Ok(all)
    ensures FilesHold(c, crc, files, version, blockSize, all)
    decreases |files|, 0
  {
    hide FileRecords, FileHolds, HasFileHeader;
    var n := |files| - 1;
    var front, more := AllRecovered(c, crc, files[..n], version, blockSize).value,
        FileRecords(c, crc, files[n], version, blockSize);
    var k := |front|;
    FileExact(c, crc, files[n], version, blockSize, all[k..]);
    if more.Ok? {
      FileExact(c, crc, files[n], version, blockSize, more.value);
      assert all[k..] == more.value;
    }
    assert all[..k] == front;
    RecoveredExact(c, crc, files[..n], version, blockSize, front);
    assert LastHolds(c, crc, files, version, blockSize, all, k);
  }

  lemma {:induction false} HeldRecovered(c: Cipher, crc: Checksum, files: seq<seq<byte>>, version: nat,
                                         blockSize: nat, all: seq<Block>)
    requires |files| > 0 && FilesHold(c, crc, files, version, blockSize, all)
    ensures AllRecovered(c, crc, files, version, blockSize) == Ok(all)
    decreases |files|, 0
  {
    hide FileRecords, FileHolds, HasFileHeader;
    var n := |files| - 1;
    var k: nat :| LastHolds(c, crc, files, version, blockSize, all, k);
    RecoveredExact(c, crc, files[..n], version, blockSize, all[..k]);
    FileExact(c, crc, files[n], version, blockSize, all[k..]);
    assert all == all[..k] + all[k..] && (k == |all| ==> all[..k] == all);
  }

  /** Reads every leftover file. */
  method ReadAll(c: Cipher, crc: Checksum, files: seq<seq<byte>>, version: nat, blockSize: nat)
    returns (ok: bool, all: seq<Block>, maxSeqNum: nat)
    ensures ok <==> AllRecovered(c, crc, files, version, blockSize).Ok?
    ensures ok ==> all == AllRecovered(c, crc, files, version, blockSize).value
    ensures ok ==> FilesHold(c, crc, files, version, blockSize, all)
    ensures ok ==> forall i :: 0 <= i < |all| ==> all[i].seqNum <= maxSeqNum
    ensures ok ==> maxSeqNum == 0 || exists i :: 0 <= i < |all| && all[i].seqNum == maxSeqNum
  {
    hide FileRecords, FileHolds, HasFileHeader, FilesHold;
    all, maxSeqNum := [], 0;
    for k := 0 to |files|
      invariant AllRecovered(c, crc, files[..k], version, blockSize) == Ok(all)
      invariant forall i :: 0 <= i < |all| ==> all[i].seqNum <= maxSeqNum
      invariant maxSeqNum == 0 || exists i :: 0 <= i < |all| && all[i].seqNum == maxSeqNum
    {
      var r, fileMax := ReadWALFileForRecovery(c, crc, files[k], version, blockSize);
      assert files[..k + 1][..k] == files[..k];
      match r
      case Err(e) =>
        if e == "integrity" {
          RecoveredFails(c, crc, files, version, blockSize, k + 1);
          return false, [], 0;
        }
      case Ok(blocks) =>
        ghost var before := all;
        all := all + blocks;
        assert forall i :: 0 <= i < |before| ==> all[i] == before[i];
        assert forall i :: 0 <= i < |blocks| ==> all[|before| + i] == blocks[i];
        maxSeqNum := if fileMax > maxSeqNum then fileMax else maxSeqNum;
    }
    assert files[..|files|] == files;
    RecoveredExact(c, crc, files, version, blockSize, all);
    ok := true;
  }

  // ----- Replaying consolidated records -----

  /** One past the highest id in use, or the counter if that is higher. */
  ghost predicate NextId(m: Index, objectNum: nat, next: nat)
  {
    && next >= objectNum && (forall k :: k in m ==> m[k].chunk < next)
    && (next == objectNum || exists k :: k in m && next == m[k].chunk + 1)
  }

  /** Chunk ids handed out from here on collide with none the map refers to. */
  method ReconcileObjectNum(m: Index, objectNum: nat) returns (next: nat)
    ensures NextId(m, objectNum, next)
  {
    next := objectNum;
    var todo := m.Keys;
    while todo != {}
      invariant todo <= m.Keys && next >= objectNum
      invariant forall k :: k in m && k !in todo ==> m[k].chunk < next
      invariant next == objectNum || exists k :: k in m && next == m[k].chunk + 1
    {
      var k :| k in todo;
      todo := todo - {k};
      if m[k].chunk + 1 > next {
        next := m[k].chunk + 1;
      }
    }
  }

  lemma ChunksBelow(m: Index, stride: nat, base: nat)
    requires WellFormed(m) && forall k :: k in m ==> m[k].chunk < base
    ensures NoneFrom(Denote(m, stride), base)
  {
    forall b | b in Denote(m, stride) ensures Denote(m, stride)[b].chunk < base {
      assert Get(Denote(m, stride), b) == Find(m, stride, b);
      var k :| Covers(m, k, b);
      FindAt(m, stride, k, b);
    }
  }

  lemma {:induction false} NextIdExists(m: Index, objectNum: nat) returns (next: nat)
    ensures NextId(m, objectNum, next)
    decreases |m|
  {
    if m == map[] {
      next := objectNum;
    } else {
      var k :| k in m;
      var n := NextIdExists(m - {k}, objectNum);
      assert forall j :: j in m && j != k ==> j in m - {k} && (m - {k})[j] == m[j];
      next := if m[k].chunk < n then n else m[k].chunk + 1;
    }
  }

  lemma IdsBelow(m: Index, objectNum: nat, base: nat, stride: nat)
    requires WellFormed(m) && NextId(m, objectNum, base)
    ensures NoneFrom(Denote(m, stride), base)
  {
    ChunksBelow(m, stride, base);
  }

  /** A counter that is past every mapped chunk already needs no reconciling. */
  lemma BaseIs(m: Index, objectNum: nat, base: nat, stride: nat)
    requires WellFormed(m) && NextId(m, objectNum, base)
    ensures NoneFrom(Denote(m, stride), objectNum) ==> base == objectNum
  {
    if k :| k in m && base == m[k].chunk + 1 {
      FindAt(m, stride, k, k);
      assert Get(Denote(m, stride), k) == Find(m, stride, k);
    }
  }

  /** The runs of a chunk, with one more of them split off. */
  lemma RunsGrow(g: Geometry, id: nat, blocks: seq<Block>, i: nat, runs: seq<Extent>, all: seq<Extent>)
    requires i < |blocks| && all == runs + RunsFrom(g, id, blocks, i)
    ensures var j := BreakAt(blocks, i + 1);
            all == (runs + [ChunkRun(g, id, blocks, i, j)]) + RunsFrom(g, id, blocks, j)
  {
  }

  lemma AfterGrows(m: Index, done: seq<Extent>, runs: seq<Extent>, e: Extent, stride: nat)
    requires WellFormed(m) && RunsOk(done + runs) && e.Ok() && |e.seqNums| == e.num
    ensures RunsOk(done + (runs + [e]))
    ensures After(m, done + (runs + [e]), stride) == Step(After(m, done + runs, stride), e, stride)
  {
    assert done + (runs + [e]) == (done + runs) + [e];
    assert (done + (runs + [e]))[..|done + runs|] == done + runs;
  }

  lemma StepIs(m: Index, e: Extent, stride: nat)
    requires WellFormed(m) && e.Ok()
    ensures Step(m, e, stride) == if Rejects(m, e) then m else Inserted(m, e, stride)
  {
  }

  /** Publishes one run behind the guard; a stale one only has its chunk tracked. */
  method ReplayRun(lookup: BlocksToObject, e: Extent)
    requires lookup.Valid() && e.Ok() && |e.seqNums| == e.num
    modifies lookup
    ensures lookup.Valid() && lookup.blockLookup == Step(old(lookup.blockLookup), e, lookup.stride)
  {
    hide Rejects, WellFormed, RefsExact, Denote, Cells, Step, Inserted;
    var covering := lookup.ResolveBlockLookup(e.start);
    RejectsByHead(lookup.blockLookup, lookup.stride, e, covering);
    StepIs(lookup.blockLookup, e, lookup.stride);
    if covering.Some? && covering.value.0.seqNums[0] >= e.seqNums[0] {
      lookup.TrackUnreferenced(e.chunk);
    } else {
      lookup.InsertCoalesced(e);
    }
  }

  /** Publishes the runs of one replayed chunk, each behind the guard. */
  method ReplayChunk(lookup: BlocksToObject, g: Geometry, id: nat, blocks: seq<Block>, ghost m: Index,
                     ghost done: seq<Extent>)
    requires lookup.Valid() && lookup.stride == g.Stride() && WellFormed(m) && RunsOk(done)
    requires lookup.blockLookup == After(m, done, g.Stride())
    modifies lookup
    ensures lookup.Valid() && RunsOk(done + RunsFrom(g, id, blocks, 0))
    ensures lookup.blockLookup == After(m, done + RunsFrom(g, id, blocks, 0), g.Stride())
  {
    hide Rejects, WellFormed, RefsExact, Denote, Cells, ConsecutiveRun, After, Step, RunsOk;
    var i := 0;
    ghost var runs, all := [], RunsFrom(g, id, blocks, 0);
    assert done + runs == done;
    while i < |blocks|
      invariant 0 <= i <= |blocks| && lookup.Valid() && RunsOk(done + runs)
      invariant lookup.blockLookup == After(m, done + runs, g.Stride())
      invariant all == runs + RunsFrom(g, id, blocks, i)
    {
      var j := NextBreak(blocks, i);
      var e := ChunkRun(g, id, blocks, i, j);
      RunsGrow(g, id, blocks, i, runs, all);
      AfterGrows(m, done, runs, e, g.Stride());
      ReplayRun(lookup, e);
      runs, i := runs + [e], j;
    }
    assert all == runs;
  }

  lemma LayoutGrows(out: Layout, base: nat, jobs: seq<seq<Block>>, job: seq<Block>)
    requires IsLayout(out, base, jobs)
    ensures base + |jobs| !in out && IsLayout(out[base + |jobs| := job], base, jobs + [job])
  {
    var id, now := base + |jobs|, out[base + |jobs| := job];
    assert id !in out;
    forall k | 0 <= k < |jobs| + 1 ensures base + k in now && now[base + k] == (jobs + [job])[k] {
      if k < |jobs| {
        assert base + k in out && out[base + k] == jobs[k];
      }
    }
  }

  /** The first k chunks are uploaded and their runs replayed. */
  ghost predicate Replaying(g: Geometry, base: nat, jobs: seq<seq<Block>>, k: nat, runs: seq<Extent>, out: Layout)
  {
    && k <= |jobs| && JobRuns(g, base, jobs) == runs + JobRuns(g, base + k, jobs[k..])
    && IsLayout(out, base, jobs[..k])
  }

  lemma NextJob(g: Geometry, base: nat, jobs: seq<seq<Block>>, k: nat)
    requires k < |jobs|
    ensures JobRuns(g, base + k, jobs[k..])
         == RunsFrom(g, base + k, jobs[k], 0) + JobRuns(g, base + k + 1, jobs[k + 1..])
  {
    assert jobs[k..][0] == jobs[k] && jobs[k..][1..] == jobs[k + 1..];
  }

  lemma Regroup(all: seq<Extent>, a: seq<Extent>, b: seq<Extent>, c: seq<Extent>)
    requires all == a + (b + c)
    ensures all == (a + b) + c
  {
  }

  lemma ReplayingNext(g: Geometry, base: nat, jobs: seq<seq<Block>>, k: nat, runs: seq<Extent>, out: Layout)
    requires k < |jobs| && Replaying(g, base, jobs, k, runs, out)
    ensures Replaying(g, base, jobs, k + 1, runs + RunsFrom(g, base + k, jobs[k], 0), out[base + k := jobs[k]])
  {
    hide IsLayout, RunsFrom, JobRuns;
    LayoutGrows(out, base, jobs[..k], jobs[k]);
    assert jobs[..k + 1] == jobs[..k] + [jobs[k]];
    NextJob(g, base, jobs, k);
    Regroup(JobRuns(g, base, jobs), runs, RunsFrom(g, base + k, jobs[k], 0), JobRuns(g, base + k + 1, jobs[k + 1..]));
  }

  lemma ReplayingStarts(g: Geometry, m: Index, base: nat, jobs: seq<seq<Block>>)
    requires WellFormed(m)
    ensures RunsOk([]) && After(m, [], g.Stride()) == m && Replaying(g, base, jobs, 0, [], map[])
  {
    assert jobs[0..] == jobs;
  }

  lemma ReplayingEnds(g: Geometry, base: nat, jobs: seq<seq<Block>>, runs: seq<Extent>, out: Layout)
    requires Replaying(g, base, jobs, |jobs|, runs, out)
    ensures runs == JobRuns(g, base, jobs) && IsLayout(out, base, jobs)
  {
    assert jobs[..|jobs|] == jobs && jobs[|jobs|..] == [];
  }

  /**
   Uploads and publishes the sorted records chunk by chunk. The first failed upload
   ends it, and so does a 64-bit id counter that has run out.
   */
  method ReplaySorted(lookup: BlocksToObject, g: Geometry, sorted: seq<Block>, base: nat, putOk: nat -> bool)
    returns (ok: bool, next: nat, out: Layout)
    requires g.Ok() && lookup.Valid() && lookup.stride == g.Stride() && Increasing(Numbers(sorted))
    modifies lookup
    ensures lookup.Valid() && next >= base && RunsOk(ReplayRuns(g, base, sorted))
    ensures ok ==> lookup.blockLookup == After(old(lookup.blockLookup), ReplayRuns(g, base, sorted), g.Stride())
    ensures ok ==> IsLayout(out, base, Chunked(g.ChunkBlocks(), sorted))
    ensures ok ==> next == base + |Chunked(g.ChunkBlocks(), sorted)| && (base <= Capacity(8) ==> next <= Capacity(8))
    ensures (forall id :: putOk(id)) && base + |sorted| <= Capacity(8) ==> ok
  {
    hide WellFormed, RefsExact, Denote, Increasing, Packing, JobOk, Chunked, After, RunsFrom, RunsOk, JobRuns, IsLayout,
        Replaying, Capacity;
    var jobs;
    ghost var cuts;
    jobs, cuts := PackChunks(g, sorted);
    JobsFew(sorted, jobs, cuts);
    ReplayRunsApart(g, base, sorted);
    next, out := base, map[];
    ghost var m, runs := lookup.blockLookup, [];
    ReplayingStarts(g, m, base, jobs);
    for k := 0 to |jobs|
      invariant lookup.Valid() && next == base + k && RunsOk(runs) && Replaying(g, base, jobs, k, runs, out)
      invariant lookup.blockLookup == After(m, runs, g.Stride()) && (base <= Capacity(8) ==> next <= Capacity(8))
    {
      var id := next;
      if id >= Capacity(8) || !putOk(id) {
        return false, next, out;
      }
      next := next + 1;
      ReplayChunk(lookup, g, id, jobs[k], m, runs);
      ReplayingNext(g, base, jobs, k, runs, out);
      runs, out := runs + RunsFrom(g, id, jobs[k], 0), out[id := jobs[k]];
    }
    ReplayingEnds(g, base, jobs, runs, out);
    ok := true;
  }

  // ----- The whole recovery -----

  /**
   Recovery will do right by every record: checked from the map, the counter and
   the records it starts with.
   */
  ghost predicate Leaning(g: Geometry, m: Index, objectNum: nat, all: seq<Block>)
    requires WellFormed(m)
  {
    exists base, sorted :: LeansFrom(g, m, objectNum, all, base, sorted)
  }

  ghost predicate LeansFrom(g: Geometry, m: Index, objectNum: nat, all: seq<Block>, base: nat, sorted: seq<Block>)
    requires WellFormed(m)
  {
    && NextId(m, objectNum, base) && Consolidated(all, sorted) && RunsOk(ReplayRuns(g, base, sorted))
    && Leans(m, ReplayRuns(g, base, sorted), g.Stride())
  }

  lemma LeaningIs(g: Geometry, m: Index, objectNum: nat, all: seq<Block>, base: nat, sorted: seq<Block>)
    requires WellFormed(m) && NextId(m, objectNum, base) && Consolidated(all, sorted)
    requires RunsOk(ReplayRuns(g, base, sorted))
    ensures Leaning(g, m, objectNum, all) <==> Leans(m, ReplayRuns(g, base, sorted), g.Stride())
  {
    hide WellFormed, ReplayRuns, Leans, RunsOk, Consolidated;
    if Leans(m, ReplayRuns(g, base, sorted), g.Stride()) {
      assert LeansFrom(g, m, objectNum, all, base, sorted);
    }
    if Leaning(g, m, objectNum, all) {
      var base', sorted' :| LeansFrom(g, m, objectNum, all, base', sorted');
      ConsolidatedUnique(all, all, sorted, sorted');
    }
  }

  /** None of the new chunks takes the id of one the map refers to. */
  ghost predicate FreshIds(d: map<nat, Loc>, out: Layout)
  {
    forall b, id :: b in d && id in out ==> d[b].chunk < id
  }

  lemma LayoutFresh(d: map<nat, Loc>, out: Layout, base: nat, jobs: seq<seq<Block>>)
    requires NoneFrom(d, base) && IsLayout(out, base, jobs)
    ensures FreshIds(d, out)
  {
  }

  /**
   Recovery of local log files. A damaged encrypted file changes nothing. If every
   upload succeeds, each record's block ends at its newest write exactly when the
   records lean, every other block stays, and no id is used twice.
   */
  method RecoverLocalWALs(lookup: BlocksToObject, g: Geometry, c: Cipher, crc: Checksum, files: seq<seq<byte>>,
                          seqNum: nat, objectNum: nat, putOk: nat -> bool)
    returns (ok: bool, newSeqNum: nat, next: nat, out: Layout)
    requires g.Ok() && lookup.Valid() && lookup.stride == g.Stride()
    modifies lookup
    ensures lookup.Valid() && newSeqNum >= seqNum && next >= objectNum
    ensures AllRecovered(c, crc, files, g.version, g.blockSize).Err? ==>
              !ok && lookup.blockLookup == old(lookup.blockLookup) && newSeqNum == seqNum && next == objectNum
    ensures ok ==>
      var all := AllRecovered(c, crc, files, g.version, g.blockSize).value;
      var d0, d := old(lookup.Contents()), lookup.Contents();
      && FilesHold(c, crc, files, g.version, g.blockSize, all)
      && (AllNewest(g, d0, d, out, Newest(all)) <==> Leaning(g, old(lookup.blockLookup), objectNum, all))
      && OthersStay(d0, d, Newest(all)) && FreshIds(d0, out) && AllMoveOrStay(g, d0, d, out, Newest(all))
      && OutOk(g, out, Newest(all), next) && OutHasAll(out, Newest(all))
      && (forall x :: x in all ==> x.seqNum <= newSeqNum)
      && (newSeqNum == seqNum || exists x :: x in all && x.seqNum == newSeqNum)
      && (NoneFrom(d0, objectNum) && objectNum <= Capacity(8) ==> next <= Capacity(8))
    ensures (forall id :: putOk(id)) && AllRecovered(c, crc, files, g.version, g.blockSize).Ok? ==>
              var all := AllRecovered(c, crc, files, g.version, g.blockSize).value;
              NoneFrom(old(lookup.Contents()), objectNum) && objectNum + |all| <= Capacity(8) ==> ok
  {
    hide WellFormed, RefsExact, Denote, AllRecovered, FilesHold, Consolidated, AllNewest, OthersStay, FreshIds, Leaning,
        Leans, After, ReplayRuns, RunsOk, IsLayout, NoneFrom, Newest, AllMoveOrStay, OutOk, OutHasAll, Capacity;
    ghost var m, d0 := lookup.blockLookup, lookup.Contents();
    var read, all, maxSeqNum := ReadAll(c, crc, files, g.version, g.blockSize);
    if !read {
      return false, seqNum, objectNum, map[];
    }
    var sorted := Consolidate(all);
    var base := ReconcileObjectNum(lookup.blockLookup, objectNum);
    SortedIncreases(all, sorted);
    ReplayRunsApart(g, base, sorted);
    ChunksBelow(m, g.Stride(), base);
    LeaningIs(g, m, objectNum, all, base, sorted);
    BaseIs(m, objectNum, base, g.Stride());
    ConsolidatedSize(all, sorted);
    if |all| == 0 {
      NothingToReplay(g, m, base, all, sorted, objectNum);
      return true, seqNum, objectNum, map[];
    }
    ok, next, out := ReplaySorted(lookup, g, sorted, base, putOk);
    newSeqNum := if maxSeqNum > seqNum then maxSeqNum else seqNum;
    if ok {
      ReplayExact(g, m, base, all, sorted, out);
      ReplayMoves(g, m, base, all, sorted, out);
      ReplayLayout(g, base, all, sorted, out);
      LayoutFresh(d0, out, base, Chunked(g.ChunkBlocks(), sorted));
    }
  }

  lemma NothingToReplay(g: Geometry, m: Index, base: nat, all: seq<Block>, sorted: seq<Block>, next: nat)
    requires WellFormed(m) && |all| == 0 && Consolidated(all, sorted) && RunsOk(ReplayRuns(g, base, sorted))
    ensures var d := Denote(m, g.Stride());
            && AllNewest(g, d, d, map[], Newest(all)) && OthersStay(d, d, Newest(all)) && FreshIds(d, map[])
            && AllMoveOrStay(g, d, d, map[], Newest(all)) && OutHasAll(map[], Newest(all))
            && OutOk(g, map[], Newest(all), next)
            && Leans(m, ReplayRuns(g, base, sorted), g.Stride())
  {
    if |sorted| > 0 {
      assert false;
    }
  }

  /** Records that are all newer than the map always come out right. */
  lemma AllNewerLeans(g: Geometry, m: Index, objectNum: nat, base: nat, all: seq<Block>, sorted: seq<Block>)
    requires WellFormed(m) && NextId(m, objectNum, base) && Consolidated(all, sorted)
    requires MapOlder(Denote(m, g.Stride()), all)
    ensures Leaning(g, m, objectNum, all)
  {
    hide WellFormed, Denote, ReplayRuns, Leans, RunsOk, Consolidated, Leaning;
    var d := Denote(m, g.Stride());
    forall b | b in Newest(all) ensures NewerThanAll(d, Newest(all)[b].seqNum) && !Drained(d, Newest(all)[b]) {
      NewestSound(all, b);
      forall k | k in d ensures d[k].seqNum < Newest(all)[b].seqNum {
        assert Older(d[k].seqNum, all);
      }
    }
    ChunksBelow(m, g.Stride(), base);
    InOrderLeans(g, m, base, all, sorted);
    LeaningIs(g, m, objectNum, all, base, sorted);
  }

  // ----- What the guard loses -----

  /**
   A drained block and a new neighbour, replayed together: if the run covering the
   drained block starts with one as new as it, the guard rejects both, and the
   neighbour stays at its old state.
   */
  lemma RetainedSegmentLosesNeighbour(g: Geometry, m: Index, base: nat, x: Block, y: Block, k: nat)
    requires g.ChunkBlocks() > 1 && WellFormed(m) && y.block == x.block + 1
    requires Extents.Covers(m, k, x.block) && m[k].seqNums[0] >= x.seqNum
    requires y.block in Denote(m, g.Stride()) ==> Denote(m, g.Stride())[y.block].seqNum < y.seqNum
    ensures var runs := ReplayRuns(g, base, [x, y]);
            && RunsOk(runs) && !Leans(m, runs, g.Stride())
            && Get(Denote(After(m, runs, g.Stride()), g.Stride()), y.block) == Get(Denote(m, g.Stride()), y.block)
  {
    PairIsOneRun(g, base, x, y);
    hide WellFormed, Denote, Chunked, ReplayRuns, ChunkRun, JobRuns, Rejects;
    RejectsHead(m, ChunkRun(g, base, [x, y], 0, 2), k);
    var stride := g.Stride();
    var runs := ReplayRuns(g, base, [x, y]);
    assert runs[..0] == [] && After(m, runs[..0], stride) == m;
    assert Rejected(m, runs, stride, 0);
    AfterInside(m, runs, stride, 0, y.block);
    assert !LeansAt(Denote(m, stride), runs[0], Rejected(m, runs, stride, 0), 1);
  }

  lemma RejectsHead(m: Index, e: Extent, k: nat)
    requires WellFormed(m) && e.Ok() && Extents.Covers(m, k, e.start) && m[k].seqNums[0] >= e.seqNums[0]
    ensures Rejects(m, e)
  {
  }

  lemma PairIsOneRun(g: Geometry, base: nat, x: Block, y: Block)
    requires g.ChunkBlocks() > 1 && y.block == x.block + 1
    ensures ReplayRuns(g, base, [x, y]) == [ChunkRun(g, base, [x, y], 0, 2)]
    ensures var e := ChunkRun(g, base, [x, y], 0, 2);
            e.Ok() && e.start == x.block && e.num == 2 && e.seqNums == [x.seqNum, y.seqNum]
  {
    assert Chunked(g.ChunkBlocks(), [x, y]) == [[x, y]];
    OneJob(g, base, [x, y]);
    assert BreakAt([x, y], 1) == 2;
  }

  /**
   A volume reopened with counter s gives the next write of block b SeqNum s + 1.
   Draining it takes effect exactly when the run covering b does not start with a
   newer block: a counter restored too low makes the guard discard fresh writes.
   */
  lemma ReopenedCounter(m: Index, stride: nat, b: nat, s: nat, chunk: nat, offset: nat)
    requires WellFormed(m) && forall k :: k in m ==> m[k].chunk != chunk
    ensures Get(Denote(Step(m, Extent(b, 1, chunk, offset, [s + 1]), stride), stride), b)
            == Some(Loc(chunk, offset, s + 1))
       <==> forall k :: Extents.Covers(m, k, b) ==> m[k].seqNums[0] <= s
  {
    var e := Extent(b, 1, chunk, offset, [s + 1]);
    var d := Denote(m, stride);
    assert Get(d, b) == Find(m, stride, b);
    if k :| Extents.Covers(m, k, b) {
      FindAt(m, stride, k, b);
      assert Get(d, b).value.chunk == m[k].chunk;
    }
    SumAt(d, Cells(e, stride), b);
    assert Get(Cells(e, stride), b) == Some(e.At(0, stride));
  }
}
