/** Facts about one drain: packing sorted blocks into chunks and publishing their runs. */
module Drain {
  import opened Bytes
  import opened Extents
  import opened Sorting
  import opened Blocks
  import opened Chunks
  import opened BlockStore
  import opened VolumeState
  import opened Durability

  // ----- Packing sorted blocks into chunks -----

  /** The jobs are the slices of sorted between consecutive cuts. */
  ghost predicate Packing(sorted: seq<Block>, jobs: seq<seq<Block>>, cuts: seq<nat>)
  {
    && |cuts| == |jobs| + 1 && Increasing(cuts) && cuts[0] == 0 && cuts[|jobs|] == |sorted|
    && forall k {:trigger jobs[k]} :: 0 <= k < |jobs| ==> IsJob(sorted, cuts, k, jobs[k])
  }

  ghost predicate IsJob(sorted: seq<Block>, cuts: seq<nat>, k: nat, job: seq<Block>)
  {
    k + 1 < |cuts| && cuts[k] <= cuts[k + 1] <= |sorted| && job == sorted[cuts[k]..cuts[k + 1]]
  }

  lemma PackingGrows(sorted: seq<Block>, jobs: seq<seq<Block>>, cuts: seq<nat>, start: nat, end: nat)
    requires start < end <= |sorted| && Packing(sorted[..start], jobs, cuts)
    ensures Packing(sorted[..end], jobs + [sorted[start..end]], cuts + [end])
  {
    var all, jobs', cuts' := sorted[..end], jobs + [sorted[start..end]], cuts + [end];
    forall k | 0 <= k < |jobs'| ensures IsJob(all, cuts', k, jobs'[k]) {
      if k < |jobs| {
        assert IsJob(sorted[..start], cuts, k, jobs[k]);
      }
    }
  }

  lemma SlicePacked(g: Geometry, sorted: seq<Block>, i: nat, j: nat)
    requires i <= j <= |sorted| && j - i <= g.ChunkBlocks() && Increasing(Numbers(sorted))
    requires forall k :: 0 <= k < |sorted| ==> Sized(g, sorted[k])
    ensures PackedOk(g, sorted[i..j])
  {
    var s := sorted[i..j];
    assert forall k :: 0 <= k < |s| ==> Numbers(s)[k] == Numbers(sorted)[i + k];
  }

  /** Slices of n records each, the last one possibly shorter. */
  function Chunked(n: nat, sorted: seq<Block>): seq<seq<Block>>
    requires n > 0
    decreases |sorted|
  {
    if |sorted| == 0 then []
    else if |sorted| <= n then [sorted]
    else [sorted[..n]] + Chunked(n, sorted[n..])
  }

  /** A chunk never overfills, and all but the last one are full. */
  ghost predicate JobOk(g: Geometry, job: seq<Block>, last: bool)
  {
    0 < |job| <= g.ChunkBlocks() && (last || |job| == g.ChunkBlocks())
  }

  lemma ChunkedNext(n: nat, sorted: seq<Block>, jobs: seq<seq<Block>>, start: nat, end: nat)
    requires n > 0 && start < end <= |sorted| && (end - start == n || (end - start < n && end == |sorted|))
    requires Chunked(n, sorted) == jobs + Chunked(n, sorted[start..])
    ensures Chunked(n, sorted) == jobs + [sorted[start..end]] + Chunked(n, sorted[end..])
  {
    var rest := sorted[start..];
    assert sorted[end..] == rest[end - start..] && rest[..end - start] == sorted[start..end];
    if end == |sorted| {
      assert rest == sorted[start..end];
    }
  }

  /** Chunks close as soon as they reach objBlockSize bytes. */
  method PackChunks(g: Geometry, sorted: seq<Block>) returns (jobs: seq<seq<Block>>, ghost cuts: seq<nat>)
    requires g.blockSize > 0
    ensures jobs == Chunked(g.ChunkBlocks(), sorted) && Packing(sorted, jobs, cuts)
    ensures forall k :: 0 <= k < |jobs| ==> JobOk(g, jobs[k], k == |jobs| - 1)
  {
    hide Packing, Chunked, Geometry.ChunkBlocks;
    jobs, cuts := [], [0];
    PackingStarts(g.ChunkBlocks(), sorted);
    var start := 0;
    for i := 0 to |sorted|
      invariant 0 <= start <= i && i - start < g.ChunkBlocks()
      invariant Packing(sorted[..start], jobs, cuts)
      invariant Chunked(g.ChunkBlocks(), sorted) == jobs + Chunked(g.ChunkBlocks(), sorted[start..])
      invariant forall k :: 0 <= k < |jobs| ==> JobOk(g, jobs[k], false)
    {
      FullAt(g, i + 1 - start);
      if Times(i + 1 - start, g.blockSize) >= g.objBlockSize {
        PackingGrows(sorted, jobs, cuts, start, i + 1);
        ChunkedNext(g.ChunkBlocks(), sorted, jobs, start, i + 1);
        jobs, cuts, start := jobs + [sorted[start..i + 1]], cuts + [i + 1], i + 1;
      }
    }
    assert sorted[..|sorted|] == sorted && sorted[|sorted|..] == [];
    if start < |sorted| {
      PackingGrows(sorted, jobs, cuts, start, |sorted|);
      ChunkedNext(g.ChunkBlocks(), sorted, jobs, start, |sorted|);
      jobs, cuts := jobs + [sorted[start..|sorted|]], cuts + [|sorted|];
    }
  }

  lemma {:induction false} CutsRise(cuts: seq<nat>, k: nat)
    requires Increasing(cuts) && k < |cuts|
    ensures cuts[k] >= k
  {
    if k > 0 {
      CutsRise(cuts, k - 1);
    }
  }

  /** There are no more chunks than blocks. */
  lemma JobsFew(sorted: seq<Block>, jobs: seq<seq<Block>>, cuts: seq<nat>)
    requires Packing(sorted, jobs, cuts)
    ensures |jobs| <= |sorted|
  {
    CutsRise(cuts, |jobs|);
  }

  lemma PackingStarts(n: nat, sorted: seq<Block>)
    requires n > 0
    ensures Packing(sorted[..0], [], [0])
    ensures Chunked(n, sorted) == [] + Chunked(n, sorted[0..]) && Chunked(n, []) == []
  {
    assert sorted[0..] == sorted;
  }

  /** Different jobs share no block. */
  lemma JobsDisjoint(sorted: seq<Block>, jobs: seq<seq<Block>>, cuts: seq<nat>, k: nat, l: nat)
    requires Packing(sorted, jobs, cuts) && Increasing(Numbers(sorted)) && k < |jobs| && l < |jobs| && k != l
    ensures NumberSet(jobs[k]) !! NumberSet(jobs[l])
  {
    forall x, y | 0 <= x < |jobs[k]| && 0 <= y < |jobs[l]| ensures jobs[k][x].block != jobs[l][y].block {
      assert jobs[k][x] == sorted[cuts[k] + x] && jobs[l][y] == sorted[cuts[l] + y];
      assert Numbers(sorted)[cuts[k] + x] != Numbers(sorted)[cuts[l] + y] by {
        if k < l {
          assert cuts[k + 1] <= cuts[l];
        } else {
          assert cuts[l + 1] <= cuts[k];
        }
      }
    }
  }

  /** The jobs leave nothing out. */
  lemma {:induction false} JobsCover(sorted: seq<Block>, jobs: seq<seq<Block>>, cuts: seq<nat>, i: nat) returns (k: nat)
    requires Packing(sorted, jobs, cuts) && i < |sorted|
    ensures k < |jobs| && sorted[i] in jobs[k]
  {
    k := 0;
    while cuts[k + 1] <= i
      invariant k < |jobs| && cuts[k] <= i
      decreases |jobs| - k
    {
      k := k + 1;
    }
    assert jobs[k][i - cuts[k]] == sorted[i];
  }

  // ----- From a run of the chunk to an extent -----

  function SeqNumsOf(blocks: seq<Block>, i: nat, j: nat): (s: seq<nat>)
    requires i <= j <= |blocks|
    ensures |s| == j - i && forall k :: 0 <= k < j - i ==> s[k] == blocks[i + k].seqNum
  {
    seq<nat>(j - i, (k: nat) requires k < j - i => blocks[i + k].seqNum)
  }

  /** The run createChunkFile builds from positions [i, j) of chunk id. */
  function ChunkRun(g: Geometry, id: nat, blocks: seq<Block>, i: nat, j: nat): (e: Extent)
    requires i < j <= |blocks|
    ensures e.Ok() && |e.seqNums| == e.num
  {
    Extent(blocks[i].block, j - i, id, CHUNK_HEADER + Times(i, g.Stride()), SeqNumsOf(blocks, i, j))
  }

  ghost predicate ConsecutiveRun(blocks: seq<Block>, i: nat, j: nat)
    requires i < j <= |blocks|
  {
    forall k :: i <= k < j ==> blocks[k].block == blocks[i].block + (k - i)
  }

  lemma RunCell(g: Geometry, packed: Layout, id: nat, blocks: seq<Block>, i: nat, j: nat, k: nat)
    requires i < j <= |blocks| && ConsecutiveRun(blocks, i, j) && i <= k < j
    requires id in packed && packed[id] == blocks
    ensures blocks[k].block in Cells(ChunkRun(g, id, blocks, i, j), g.Stride())
    ensures Cells(ChunkRun(g, id, blocks, i, j), g.Stride())[blocks[k].block].chunk == id
    ensures Cells(ChunkRun(g, id, blocks, i, j), g.Stride())[blocks[k].block].seqNum == blocks[k].seqNum
    ensures HoldsAt(g, packed, Cells(ChunkRun(g, id, blocks, i, j), g.Stride())[blocks[k].block], blocks[k].block, k)
  {
    var e := ChunkRun(g, id, blocks, i, j);
    TimesAdd(i, k - i, g.Stride());
    assert Get(Cells(e, g.Stride()), blocks[k].block) == Some(e.At(k - i, g.Stride()));
  }

  lemma RunCellsReal(g: Geometry, v: View, id: nat, blocks: seq<Block>, i: nat, j: nat)
    requires i < j <= |blocks| && ConsecutiveRun(blocks, i, j)
    requires id in v.packed && v.packed[id] == blocks && id in v.present && id < v.objectNum
    requires forall k :: i <= k < j ==> Genuine(v.latest, blocks[k])
    ensures MapReal(g, v, Cells(ChunkRun(g, id, blocks, i, j), g.Stride()))
  {
    var e := ChunkRun(g, id, blocks, i, j);
    var cells := Cells(e, g.Stride());
    forall b | b in cells
      ensures b in v.latest && Holds(g, v.packed, cells[b], b) && cells[b].chunk == id
    {
      assert Get(cells, b).Some?;
      var k := i + (b - e.start);
      assert blocks[k].block == b;
      RunCell(g, v.packed, id, blocks, i, j, k);
      assert HoldsAt(g, v.packed, cells[b], b, k);
    }
  }

  /** A cell of the run, by position. */
  lemma RunCellAt(g: Geometry, id: nat, blocks: seq<Block>, i: nat, j: nat, b: nat) returns (k: nat)
    requires i < j <= |blocks| && ConsecutiveRun(blocks, i, j)
    requires b in Cells(ChunkRun(g, id, blocks, i, j), g.Stride())
    ensures i <= k < j && blocks[k].block == b
    ensures Cells(ChunkRun(g, id, blocks, i, j), g.Stride())[b].seqNum == blocks[k].seqNum
    ensures Cells(ChunkRun(g, id, blocks, i, j), g.Stride())[b].chunk == id
  {
    var e := ChunkRun(g, id, blocks, i, j);
    assert Get(Cells(e, g.Stride()), b).Some?;
    k := i + (b - e.start);
  }

  // ----- MarkPersistedRange on the blocks of one extent -----

  lemma RangeChosen(entries: map<nat, Entry>, e: Extent, stride: nat, eligible: seq<bool>)
    requires e.Ok() && |e.seqNums| == e.num && eligible == Eligible(entries, RangeBlocks(e), e.seqNums)
    ensures Chosen(RangeBlocks(e), eligible, e.num) == Gone(entries, Cells(e, stride))
  {
    var cells := Cells(e, stride);
    forall b: nat ensures b in Chosen(RangeBlocks(e), eligible, e.num) <==> b in Gone(entries, cells) {
      ChosenIn(RangeBlocks(e), eligible, e.num, b);
      assert Get(cells, b) == if e.start <= b < e.End() then Some(e.At(b - e.start, stride)) else None;
      if e.start <= b < e.End() {
        assert RangeBlocks(e)[b - e.start] == b;
      }
    }
  }

  lemma RangePlaced(entries: map<nat, Entry>, e: Extent, stride: nat, eligible: seq<bool>)
    requires e.Ok() && |e.seqNums| == e.num && eligible == Eligible(entries, RangeBlocks(e), e.seqNums)
    ensures Placed(RangeBlocks(e), e.seqNums, eligible, e.chunk, e.offset, stride, e.num)
         == Restrict(Cells(e, stride), Gone(entries, Cells(e, stride)))
  {
    hide Placed, Chosen, Times;
    var placed := Placed(RangeBlocks(e), e.seqNums, eligible, e.chunk, e.offset, stride, e.num);
    var cells := Cells(e, stride);
    PlacedKeys(RangeBlocks(e), e.seqNums, eligible, e.chunk, e.offset, stride, e.num);
    RangeChosen(entries, e, stride, eligible);
    forall b | b in placed ensures b in cells && placed[b] == cells[b] {
      assert Get(cells, b) == if e.start <= b < e.End() then Some(e.At(b - e.start, stride)) else None;
      PlacedAt(RangeBlocks(e), e.seqNums, eligible, e.chunk, e.offset, stride, e.num, b - e.start);
    }
  }

  // ----- The stale-drain guard -----

  /** createChunkFile skips a run whose first block is not newer than the head of the covering extent. */
  ghost predicate Rejects(m: Index, e: Extent)
    requires WellFormed(m) && e.Ok()
  {
    exists k :: Covers(m, k, e.start) && m[k].seqNums[0] >= e.seqNums[0]
  }

  /** Looking up the covering run decides the guard. */
  lemma RejectsByHead(m: Index, stride: nat, e: Extent, covering: Option<(Extent, nat)>)
    requires WellFormed(m) && e.Ok()
    requires covering.None? <==> e.start !in Denote(m, stride)
    requires covering.Some? ==> covering.value.0.start in m && m[covering.value.0.start] == covering.value.0
    requires covering.Some? ==>
               && covering.value.0.start + covering.value.1 == e.start
               && covering.value.1 < covering.value.0.num
    ensures covering.Some? ==> |covering.value.0.seqNums| > 0
    ensures Rejects(m, e) <==> covering.Some? && covering.value.0.seqNums[0] >= e.seqNums[0]
  {
    assert Get(Denote(m, stride), e.start) == Find(m, stride, e.start);
    if covering.Some? {
      var k := covering.value.0.start;
      assert Covers(m, k, e.start);
      forall l | Covers(m, l, e.start) ensures l == k {
        UniqueOwner(m, l, k, e.start);
      }
    }
    if k :| Covers(m, k, e.start) {
      FindAt(m, stride, k, e.start);
    }
  }

  // ----- What holds throughout one drain -----

  /**
   base is the first chunk id of this drain and done the blocks it has published:
   whatever else is mapped is older than the whole segment.
   */
  ghost predicate OnlyOlder(mapped: map<nat, Loc>, base: nat, sorted: seq<Block>, done: set<nat>)
  {
    && (forall b :: b in mapped && mapped[b].chunk >= base ==> b in done)
    && (forall b, i :: b in mapped && mapped[b].chunk < base && 0 <= i < |sorted| ==>
        mapped[b].seqNum < sorted[i].seqNum)
  }

  ghost predicate Draining(v: View, base: nat, sorted: seq<Block>, done: set<nat>)
  {
    && base <= v.objectNum
    && OnlyOlder(v.mapped, base, sorted, done)
    && (forall i :: 0 <= i < |sorted| ==> Genuine(v.latest, sorted[i]) && sorted[i] in v.retained)
    && AllBelow(sorted, v.Log())
  }

  lemma DrainingStarts(g: Geometry, v: View, sorted: seq<Block>)
    requires Coherent(g, v) && Consolidated(v.wal, sorted)
    ensures Draining(AfterRotate(v, sorted), v.objectNum, sorted, {})
  {
    SortedReal(g, v, sorted);
    assert AfterRotate(v, sorted).Log() == v.writes;
  }

  /** In-order drain: the guard never fires on a block this drain has not published yet. */
  lemma GuardPasses(m: Index, stride: nat, base: nat, sorted: seq<Block>, done: set<nat>, e: Extent, n: nat)
    requires WellFormed(m) && OnlyOlder(Denote(m, stride), base, sorted, done)
    requires e.Ok() && e.start !in done && n < |sorted| && e.seqNums[0] == sorted[n].seqNum
    ensures !Rejects(m, e)
  {
    if k :| Covers(m, k, e.start) && m[k].seqNums[0] >= e.seqNums[0] {
      FindAt(m, stride, k, e.start);
      assert Get(Denote(m, stride), e.start) == Some(m[k].At(e.start - k, stride));
      assert Covers(m, k, k);
      FindAt(m, stride, k, k);
      assert false;
    }
  }

  /** An unpublished run of this drain's chunk satisfies everything publishing needs. */
  lemma RunPublishable(g: Geometry, v: View, base: nat, sorted: seq<Block>, done: set<nat>, id: nat,
                       blocks: seq<Block>, i: nat, j: nat)
    requires Draining(v, base, sorted, done) && base <= id
    requires i < j <= |blocks| && ConsecutiveRun(blocks, i, j)
    requires id in v.packed && v.packed[id] == blocks && id in v.present && id < v.objectNum
    requires forall k :: i <= k < j ==> blocks[k] in sorted && blocks[k].block !in done
    ensures Publishable(g, v, Cells(ChunkRun(g, id, blocks, i, j), g.Stride()), SetOf(blocks[i..j]))
    ensures CellsLogged(v, Cells(ChunkRun(g, id, blocks, i, j), g.Stride()))
  {
    var cells := Cells(ChunkRun(g, id, blocks, i, j), g.Stride());
    RunCellsReal(g, v, id, blocks, i, j);
    forall x | x in SetOf(blocks[i..j]) ensures x.block in cells && cells[x.block].seqNum == x.seqNum {
      var k :| 0 <= k < j - i && blocks[i..j][k] == x;
      RunCell(g, v.packed, id, blocks, i, j, i + k);
    }
    forall b | b in cells
      ensures b in v.mapped ==> v.mapped[b].seqNum < cells[b].seqNum
      ensures forall n :: 0 <= n < |v.Log()| ==> cells[b].seqNum < v.Log()[n].seqNum
      ensures Logged(v.retained, b, cells[b].seqNum)
    {
      var k := RunCellAt(g, id, blocks, i, j, b);
      var n :| 0 <= n < |sorted| && sorted[n] == blocks[k];
      var r :| 0 <= r < |v.retained| && v.retained[r] == sorted[n];
    }
  }

  /** Publishing a run extends the set of published blocks and keeps the rest. */
  lemma DrainingContinues(g: Geometry, v: View, base: nat, sorted: seq<Block>, done: set<nat>, id: nat,
                          blocks: seq<Block>, i: nat, j: nat, drained: set<Block>)
    requires Draining(v, base, sorted, done) && base <= id
    requires i < j <= |blocks| && ConsecutiveRun(blocks, i, j)
    ensures Draining(AfterPublish(v, Cells(ChunkRun(g, id, blocks, i, j), g.Stride()), drained), base, sorted,
            done + NumberSet(blocks[i..j]))
  {
    var cells := Cells(ChunkRun(g, id, blocks, i, j), g.Stride());
    var w := AfterPublish(v, cells, drained);
    forall b | b in cells ensures cells[b].chunk == id && b in NumberSet(blocks[i..j]) {
      var k := RunCellAt(g, id, blocks, i, j, b);
      assert blocks[i..j][k - i].block == b;
    }
    assert w.Log() == v.Log();
  }

  // ----- Publishing a chunk run by run -----

  lemma SetsSplit(blocks: seq<Block>, i: nat, j: nat)
    requires i <= j <= |blocks|
    ensures NumberSet(blocks[..j]) == NumberSet(blocks[..i]) + NumberSet(blocks[i..j])
    ensures SetOf(blocks[..j]) == SetOf(blocks[..i]) + SetOf(blocks[i..j])
    ensures NumberSet(blocks[..0]) == {} && SetOf(blocks[..0]) == {}
  {
    forall b | b in NumberSet(blocks[..j]) ensures b in NumberSet(blocks[..i]) + NumberSet(blocks[i..j]) {
      var k :| 0 <= k < j && blocks[..j][k].block == b;
      assert if k < i then blocks[..i][k].block == b else blocks[i..j][k - i].block == b;
    }
    forall b | b in NumberSet(blocks[..i]) + NumberSet(blocks[i..j]) ensures b in NumberSet(blocks[..j]) {
      if b in NumberSet(blocks[..i]) {
        var k :| 0 <= k < i && blocks[..i][k].block == b;
        assert blocks[..j][k].block == b;
      } else {
        var k :| 0 <= k < j - i && blocks[i..j][k].block == b;
        assert blocks[..j][i + k].block == b;
      }
    }
    assert blocks[..j] == blocks[..i] + blocks[i..j];
  }

  /** The first i blocks of chunk id are published and no longer stranded. */
  ghost predicate Publishing(v: View, base: nat, sorted: seq<Block>, done: set<nat>, id: nat, blocks: seq<Block>,
                             i: nat, stranded: set<Block>)
    requires i <= |blocks|
  {
    && base <= id < v.objectNum && id in v.packed && v.packed[id] == blocks && id in v.present
    && Draining(v, base, sorted, done + NumberSet(blocks[..i]))
    && v.stranded == stranded - SetOf(blocks[..i])
  }

  /** The blocks are ours to publish. */
  ghost predicate Fresh(sorted: seq<Block>, done: set<nat>, blocks: seq<Block>)
  {
    Increasing(Numbers(blocks)) && forall k :: 0 <= k < |blocks| ==> blocks[k] in sorted && blocks[k].block !in done
  }

  lemma FreshGenuine(v: View, base: nat, sorted: seq<Block>, done: set<nat>, blocks: seq<Block>)
    requires Draining(v, base, sorted, done) && Fresh(sorted, done, blocks)
    ensures forall k :: 0 <= k < |blocks| ==> Genuine(v.latest, blocks[k]) && blocks[k] in v.retained
  {
    forall k | 0 <= k < |blocks| ensures Genuine(v.latest, blocks[k]) && blocks[k] in v.retained {
      var n :| 0 <= n < |sorted| && sorted[n] == blocks[k];
    }
  }

  lemma DrainingBurns(v: View, base: nat, sorted: seq<Block>, done: set<nat>)
    requires Draining(v, base, sorted, done)
    ensures Draining(v.(objectNum := v.objectNum + 1), base, sorted, done)
  {
    assert v.(objectNum := v.objectNum + 1).Log() == v.Log();
  }

  lemma PublishingStarts(v: View, base: nat, sorted: seq<Block>, done: set<nat>, blocks: seq<Block>)
    requires Draining(v, base, sorted, done)
    ensures Publishing(AfterUpload(v, blocks), base, sorted, done, v.objectNum, blocks, 0, v.stranded)
  {
    SetsSplit(blocks, 0, 0);
    assert AfterUpload(v, blocks).Log() == v.Log();
    assert done + NumberSet(blocks[..0]) == done;
  }

  lemma PublishingEnds(v: View, base: nat, sorted: seq<Block>, done: set<nat>, id: nat, blocks: seq<Block>,
                       stranded: set<Block>)
    requires Publishing(v, base, sorted, done, id, blocks, |blocks|, stranded)
    ensures Draining(v, base, sorted, done + NumberSet(blocks)) && v.stranded == stranded - SetOf(blocks)
  {
    assert blocks[..|blocks|] == blocks;
  }

  lemma StillFresh(sorted: seq<Block>, done: set<nat>, blocks: seq<Block>, i: nat, k: nat)
    requires Fresh(sorted, done, blocks) && i <= k < |blocks|
    ensures blocks[k].block !in done + NumberSet(blocks[..i])
  {
    assert forall x :: 0 <= x < i ==> Numbers(blocks)[x] < Numbers(blocks)[k];
  }

  lemma NextRun(g: Geometry, v: View, m: Index, base: nat, sorted: seq<Block>, done: set<nat>, id: nat,
                blocks: seq<Block>, i: nat, j: nat, stranded: set<Block>)
    requires WellFormed(m) && v.mapped == Denote(m, g.Stride()) && Fresh(sorted, done, blocks)
    requires i < j <= |blocks| && ConsecutiveRun(blocks, i, j)
    requires Publishing(v, base, sorted, done, id, blocks, i, stranded)
    ensures !Rejects(m, ChunkRun(g, id, blocks, i, j))
    ensures Publishable(g, v, Cells(ChunkRun(g, id, blocks, i, j), g.Stride()), SetOf(blocks[i..j]))
    ensures CellsLogged(v, Cells(ChunkRun(g, id, blocks, i, j), g.Stride()))
    ensures Publishing(AfterPublish(v, Cells(ChunkRun(g, id, blocks, i, j), g.Stride()), SetOf(blocks[i..j])), base,
            sorted, done, id, blocks, j, stranded)
  {
    hide OnlyOlder, Rejects, Publishable, WellFormed, Denote, Cells, ConsecutiveRun, AllBelow, CellsLogged;
    var done' := done + NumberSet(blocks[..i]);
    forall k | i <= k < j ensures blocks[k] in sorted && blocks[k].block !in done' {
      StillFresh(sorted, done, blocks, i, k);
    }
    var n :| 0 <= n < |sorted| && sorted[n] == blocks[i];
    GuardPasses(m, g.Stride(), base, sorted, done', ChunkRun(g, id, blocks, i, j), n);
    RunPublishable(g, v, base, sorted, done', id, blocks, i, j);
    DrainingContinues(g, v, base, sorted, done', id, blocks, i, j, SetOf(blocks[i..j]));
    SetsSplit(blocks, i, j);
    assert done' + NumberSet(blocks[i..j]) == done + NumberSet(blocks[..j]);
  }

  /** The first position from j on that does not continue its predecessor. */
  function BreakAt(blocks: seq<Block>, j: nat): (e: nat)
    requires 0 < j <= |blocks|
    ensures j <= e <= |blocks|
    decreases |blocks| - j
  {
    if j < |blocks| && blocks[j].block == blocks[j - 1].block + 1 then BreakAt(blocks, j + 1) else j
  }

  /** Finds the end of the consecutive run that starts at position i. */
  method NextBreak(blocks: seq<Block>, i: nat) returns (j: nat)
    requires i < |blocks|
    ensures i < j <= |blocks| && ConsecutiveRun(blocks, i, j)
    ensures j < |blocks| ==> blocks[j].block != blocks[j - 1].block + 1
    ensures j == BreakAt(blocks, i + 1)
  {
    j := i + 1;
    while j < |blocks| && blocks[j].block == blocks[j - 1].block + 1
      invariant i < j <= |blocks| && ConsecutiveRun(blocks, i, j) && BreakAt(blocks, j) == BreakAt(blocks, i + 1)
    {
      j := j + 1;
    }
  }

  // ----- Uploading all chunks of a drain, in any order -----

  ghost predicate JobsOf(g: Geometry, sorted: seq<Block>, jobs: seq<seq<Block>>, cuts: seq<nat>)
  {
    Increasing(Numbers(sorted)) && Packing(sorted, jobs, cuts) && forall k :: 0 <= k < |jobs| ==> PackedOk(g, jobs[k])
  }

  /** done holds the blocks of the published jobs and drained their records; todo is yet to come. */
  ghost predicate Uploading(v: View, base: nat, sorted: seq<Block>, jobs: seq<seq<Block>>, todo: set<nat>,
                            done: set<nat>, drained: set<Block>, stranded: set<Block>, ok: bool)
  {
    && Draining(v, base, sorted, done) && v.stranded == stranded - drained
    && (forall k :: k in todo ==> k < |jobs| && NumberSet(jobs[k]) !! done)
    && (ok ==> forall k :: 0 <= k < |jobs| && k !in todo ==> SetOf(jobs[k]) <= drained)
  }

  lemma UploadingStarts(v: View, base: nat, sorted: seq<Block>, jobs: seq<seq<Block>>, todo: set<nat>)
    requires Draining(v, base, sorted, {}) && todo == Span(0, |jobs|)
    ensures Uploading(v, base, sorted, jobs, todo, {}, {}, v.stranded, true)
  {
  }

  lemma JobFresh(g: Geometry, v: View, base: nat, sorted: seq<Block>, jobs: seq<seq<Block>>, cuts: seq<nat>,
                 todo: set<nat>, done: set<nat>, drained: set<Block>, stranded: set<Block>, ok: bool, k: nat)
    requires JobsOf(g, sorted, jobs, cuts) && Uploading(v, base, sorted, jobs, todo, done, drained, stranded, ok)
    requires k in todo
    ensures Fresh(sorted, done, jobs[k])
  {
    var job := jobs[k];
    assert IsJob(sorted, cuts, k, job);
    forall i | 0 <= i < |job| ensures job[i].block !in done {
      assert job[i].block in NumberSet(job);
    }
  }

  /** One more job settled, published or not. */
  lemma UploadingNext(g: Geometry, v: View, w: View, base: nat, sorted: seq<Block>, jobs: seq<seq<Block>>,
                      cuts: seq<nat>, todo: set<nat>,
                      done: set<nat>, drained: set<Block>, stranded: set<Block>, ok: bool, k: nat, stored: bool)
    requires JobsOf(g, sorted, jobs, cuts) && Uploading(v, base, sorted, jobs, todo, done, drained, stranded, ok)
    requires k in todo
    requires Draining(w, base, sorted, if stored then done + NumberSet(jobs[k]) else done)
    requires w.stranded == if stored then v.stranded - SetOf(jobs[k]) else v.stranded
    ensures stored ==> Uploading(w, base, sorted, jobs, todo - {k}, done + NumberSet(jobs[k]),
            drained + SetOf(jobs[k]), stranded, ok)
    ensures !stored ==> Uploading(w, base, sorted, jobs, todo - {k}, done, drained, stranded, false)
  {
    forall l | l in todo && l != k ensures NumberSet(jobs[l]) !! NumberSet(jobs[k]) {
      JobsDisjoint(sorted, jobs, cuts, l, k);
    }
  }

  lemma UploadingEnds(g: Geometry, v: View, base: nat, sorted: seq<Block>, jobs: seq<seq<Block>>, cuts: seq<nat>,
                      done: set<nat>, drained: set<Block>, stranded: set<Block>)
    requires JobsOf(g, sorted, jobs, cuts) && Uploading(v, base, sorted, jobs, {}, done, drained, stranded, true)
    ensures v.stranded <= stranded - SetOf(sorted)
  {
    forall x | x in sorted ensures x in drained {
      var i :| 0 <= i < |sorted| && sorted[i] == x;
      var k := JobsCover(sorted, jobs, cuts, i);
      assert x in SetOf(jobs[k]);
    }
  }

  lemma UploadingHas(g: Geometry, v: View, base: nat, sorted: seq<Block>, jobs: seq<seq<Block>>, cuts: seq<nat>,
                     todo: set<nat>, done: set<nat>, drained: set<Block>, stranded: set<Block>, ok: bool, k: nat)
    requires JobsOf(g, sorted, jobs, cuts) && Uploading(v, base, sorted, jobs, todo, done, drained, stranded, ok)
    requires k in todo
    ensures k < |jobs| && PackedOk(g, jobs[k]) && Fresh(sorted, done, jobs[k]) && Draining(v, base, sorted, done)
  {
    JobFresh(g, v, base, sorted, jobs, cuts, todo, done, drained, stranded, ok, k);
  }

  lemma UploadingShrinks(v: View, base: nat, sorted: seq<Block>, jobs: seq<seq<Block>>, done: set<nat>,
                         drained: set<Block>, stranded: set<Block>, ok: bool)
    requires Uploading(v, base, sorted, jobs, {}, done, drained, stranded, ok)
    ensures v.stranded <= stranded
  {
  }

  lemma PackedJobs(g: Geometry, sorted: seq<Block>, jobs: seq<seq<Block>>, cuts: seq<nat>)
    requires Increasing(Numbers(sorted)) && Packing(sorted, jobs, cuts)
    requires forall k :: 0 <= k < |jobs| ==> JobOk(g, jobs[k], k == |jobs| - 1)
    requires forall k :: 0 <= k < |sorted| ==> Sized(g, sorted[k])
    ensures JobsOf(g, sorted, jobs, cuts)
  {
    hide Sized, PackedOk;
    forall k | 0 <= k < |jobs| ensures PackedOk(g, jobs[k]) {
      assert IsJob(sorted, cuts, k, jobs[k]);
      assert JobOk(g, jobs[k], k == |jobs| - 1);
      SlicePacked(g, sorted, cuts[k], cuts[k + 1]);
    }
  }
}
