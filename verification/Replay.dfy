/**
 What replaying consolidated records does to the block map, run by run, and when
 it leaves every block at its newest write.
 */
module Replay {
  import opened Bytes
  import opened Extents
  import opened Sorting
  import opened Blocks
  import opened Chunks
  import opened Durability
  import opened Drain

  // ----- The runs of a replay -----

  lemma {:induction false} BreakRun(blocks: seq<Block>, i: nat, j: nat)
    requires i < j <= |blocks| && ConsecutiveRun(blocks, i, j)
    ensures ConsecutiveRun(blocks, i, BreakAt(blocks, j))
    decreases |blocks| - j
  {
    if j < |blocks| && blocks[j].block == blocks[j - 1].block + 1 {
      BreakRun(blocks, i, j + 1);
    }
  }

  /** The runs of chunk id from position i on. */
  function RunsFrom(g: Geometry, id: nat, blocks: seq<Block>, i: nat): seq<Extent>
    requires i <= |blocks|
    decreases |blocks| - i
  {
    if i == |blocks| then []
    else [ChunkRun(g, id, blocks, i, BreakAt(blocks, i + 1))] + RunsFrom(g, id, blocks, BreakAt(blocks, i + 1))
  }

  /** The runs of all chunks, which take consecutive ids. */
  function JobRuns(g: Geometry, id: nat, jobs: seq<seq<Block>>): seq<Extent>
    decreases |jobs|
  {
    if |jobs| == 0 then [] else RunsFrom(g, id, jobs[0], 0) + JobRuns(g, id + 1, jobs[1..])
  }

  function ReplayRuns(g: Geometry, base: nat, sorted: seq<Block>): seq<Extent>
  {
    JobRuns(g, base, Chunked(g.ChunkBlocks(), sorted))
  }

  /** Cell x of run e is record q of chunk id, at that record's place. */
  ghost predicate CellIs(g: Geometry, id: nat, blocks: seq<Block>, e: Extent, x: nat, q: nat)
  {
    && q < |blocks| && x < e.num == |e.seqNums| && e.start + x == blocks[q].block
    && e.At(x, g.Stride()) == Loc(id, CHUNK_HEADER + Times(q, g.Stride()), blocks[q].seqNum)
  }

  lemma RunCells(g: Geometry, id: nat, blocks: seq<Block>, i: nat, x: nat)
    requires i < |blocks| && i + x < BreakAt(blocks, i + 1)
    ensures CellIs(g, id, blocks, ChunkRun(g, id, blocks, i, BreakAt(blocks, i + 1)), x, i + x)
  {
    BreakRun(blocks, i, i + 1);
    TimesAdd(i, x, g.Stride());
  }

  lemma {:induction false} ChunkRunHas(g: Geometry, id: nat, blocks: seq<Block>, i: nat, r: nat, x: nat)
    returns (q: nat)
    requires i <= |blocks| && r < |RunsFrom(g, id, blocks, i)| && x < RunsFrom(g, id, blocks, i)[r].num
    ensures i <= q && CellIs(g, id, blocks, RunsFrom(g, id, blocks, i)[r], x, q)
    decreases |blocks| - i
  {
    if r == 0 {
      RunCells(g, id, blocks, i, x);
      q := i + x;
    } else {
      q := ChunkRunHas(g, id, blocks, BreakAt(blocks, i + 1), r - 1, x);
    }
  }

  lemma {:induction false} ChunkRecordHas(g: Geometry, id: nat, blocks: seq<Block>, i: nat, q: nat)
    returns (r: nat, x: nat)
    requires i <= q < |blocks|
    ensures r < |RunsFrom(g, id, blocks, i)| && CellIs(g, id, blocks, RunsFrom(g, id, blocks, i)[r], x, q)
    decreases |blocks| - i
  {
    var j := BreakAt(blocks, i + 1);
    if q < j {
      RunCells(g, id, blocks, i, q - i);
      r, x := 0, q - i;
    } else {
      r, x := ChunkRecordHas(g, id, blocks, j, q);
      r := r + 1;
    }
  }

  /** Every cell of the replay's runs is a record. */
  lemma {:induction false} RunHasRecord(g: Geometry, id: nat, jobs: seq<seq<Block>>, r: nat, x: nat)
    returns (k: nat, q: nat)
    requires r < |JobRuns(g, id, jobs)| && x < JobRuns(g, id, jobs)[r].num
    ensures k < |jobs| && CellIs(g, id + k, jobs[k], JobRuns(g, id, jobs)[r], x, q)
    decreases |jobs|
  {
    var first := RunsFrom(g, id, jobs[0], 0);
    if r < |first| {
      q := ChunkRunHas(g, id, jobs[0], 0, r, x);
      k := 0;
    } else {
      k, q := RunHasRecord(g, id + 1, jobs[1..], r - |first|, x);
      k := k + 1;
    }
  }

  /** Every record is a cell of one of the runs. */
  lemma {:induction false} RecordHasRun(g: Geometry, id: nat, jobs: seq<seq<Block>>, k: nat, q: nat)
    returns (r: nat, x: nat)
    requires k < |jobs| && q < |jobs[k]|
    ensures r < |JobRuns(g, id, jobs)| && CellIs(g, id + k, jobs[k], JobRuns(g, id, jobs)[r], x, q)
    decreases |jobs|
  {
    if k == 0 {
      r, x := ChunkRecordHas(g, id, jobs[0], 0, q);
    } else {
      r, x := RecordHasRun(g, id + 1, jobs[1..], k - 1, q);
      r := r + |RunsFrom(g, id, jobs[0], 0)|;
    }
  }

  // ----- They are disjoint and ascending -----

  ghost predicate RunsOk(runs: seq<Extent>)
  {
    forall i :: 0 <= i < |runs| ==> runs[i].Ok() && |runs[i].seqNums| == runs[i].num
  }

  ghost predicate Apart(runs: seq<Extent>)
  {
    forall i, j :: 0 <= i < j < |runs| ==> runs[i].End() <= runs[j].start
  }

  ghost predicate Within(runs: seq<Extent>, lo: nat, hi: nat)
  {
    forall i :: 0 <= i < |runs| ==> lo <= runs[i].start && runs[i].End() <= hi
  }

  lemma ApartConcat(a: seq<Extent>, c: seq<Extent>, lo: nat, mid: nat, hi: nat)
    requires Apart(a) && Apart(c) && Within(a, lo, mid) && Within(c, mid, hi) && lo <= mid <= hi
    ensures Apart(a + c) && Within(a + c, lo, hi)
  {
  }

  lemma OneRunApart(e: Extent, lo: nat, hi: nat)
    requires e.Ok() && |e.seqNums| == e.num && lo <= e.start && e.End() <= hi
    ensures RunsOk([e]) && Apart([e]) && Within([e], lo, hi)
  {
  }

  lemma {:induction false} RunsFromApart(g: Geometry, id: nat, blocks: seq<Block>, i: nat, hi: nat)
    requires i < |blocks| && Increasing(Numbers(blocks)) && blocks[|blocks| - 1].block < hi
    ensures var runs := RunsFrom(g, id, blocks, i); RunsOk(runs) && Apart(runs) && Within(runs, blocks[i].block, hi)
    decreases |blocks| - i
  {
    var j := BreakAt(blocks, i + 1);
    BreakRun(blocks, i, i + 1);
    var first := ChunkRun(g, id, blocks, i, j);
    assert blocks[j - 1].block + 1 == first.End();
    assert Numbers(blocks)[j - 1] <= Numbers(blocks)[|blocks| - 1];
    assert first.Ok() && |first.seqNums| == first.num;
    hide Apart, RunsOk, Within, ChunkRun, ConsecutiveRun;
    OneRunApart(first, blocks[i].block, hi);
    if j == |blocks| {
      assert RunsFrom(g, id, blocks, i) == [first];
    } else {
      RunsFromApart(g, id, blocks, j, hi);
      assert Numbers(blocks)[j - 1] < Numbers(blocks)[j];
      OneRunApart(first, blocks[i].block, blocks[j].block);
      ApartConcat([first], RunsFrom(g, id, blocks, j), blocks[i].block, blocks[j].block, hi);
    }
  }

  lemma {:induction false} ChunkedApart(g: Geometry, id: nat, n: nat, sorted: seq<Block>, hi: nat)
    requires n > 0 && |sorted| > 0 && Increasing(Numbers(sorted)) && sorted[|sorted| - 1].block < hi
    ensures var runs := JobRuns(g, id, Chunked(n, sorted));
            RunsOk(runs) && Apart(runs) && Within(runs, sorted[0].block, hi)
    decreases |sorted|
  {
    hide Increasing, RunsFrom, Apart, Within, RunsOk;
    var jobs := Chunked(n, sorted);
    if |sorted| <= n {
      RunsFromApart(g, id, sorted, 0, hi);
      OneJob(g, id, sorted);
    } else {
      var a, c := sorted[..n], sorted[n..];
      SplitIncreasing(sorted, n);
      RunsFromApart(g, id, a, 0, c[0].block);
      ChunkedApart(g, id + 1, n, c, hi);
      ApartConcat(RunsFrom(g, id, a, 0), JobRuns(g, id + 1, Chunked(n, c)), sorted[0].block, c[0].block, hi);
      assert jobs[1..] == Chunked(n, c);
      RunsOkConcat(RunsFrom(g, id, a, 0), JobRuns(g, id + 1, Chunked(n, c)));
    }
  }

  lemma OneJob(g: Geometry, id: nat, sorted: seq<Block>)
    ensures JobRuns(g, id, [sorted]) == RunsFrom(g, id, sorted, 0)
  {
    var none: seq<seq<Block>> := [];
    assert [sorted][1..] == none;
    assert JobRuns(g, id + 1, none) == [];
  }

  lemma RunsOkConcat(a: seq<Extent>, c: seq<Extent>)
    requires RunsOk(a) && RunsOk(c)
    ensures RunsOk(a + c)
  {
  }

  lemma SplitIncreasing(sorted: seq<Block>, n: nat)
    requires 0 < n < |sorted| && Increasing(Numbers(sorted))
    ensures Increasing(Numbers(sorted[..n])) && Increasing(Numbers(sorted[n..]))
    ensures sorted[n - 1].block < sorted[n].block && sorted[0].block <= sorted[n].block <= sorted[|sorted| - 1].block
  {
    assert forall i :: 0 <= i < n ==> Numbers(sorted[..n])[i] == Numbers(sorted)[i];
    assert forall i :: 0 <= i < |sorted| - n ==> Numbers(sorted[n..])[i] == Numbers(sorted)[n + i];
    assert Numbers(sorted)[n - 1] < Numbers(sorted)[n] && Numbers(sorted)[n] <= Numbers(sorted)[|sorted| - 1];
  }

  lemma ReplayRunsApart(g: Geometry, base: nat, sorted: seq<Block>)
    requires Increasing(Numbers(sorted))
    ensures RunsOk(ReplayRuns(g, base, sorted)) && Apart(ReplayRuns(g, base, sorted))
  {
    if |sorted| > 0 {
      ChunkedApart(g, base, g.ChunkBlocks(), sorted, sorted[|sorted| - 1].block + 1);
    }
  }

  // ----- What a sequence of guarded runs does -----

  ghost function Step(m: Index, e: Extent, stride: nat): (r: Index)
    requires WellFormed(m) && e.Ok()
    ensures WellFormed(r)
    ensures Denote(r, stride) == if Rejects(m, e) then Denote(m, stride) else Denote(m, stride) + Cells(e, stride)
  {
    InsertedDenotes(m, e, stride);
    if Rejects(m, e) then m else Inserted(m, e, stride)
  }

  /** The index after the guard has seen all runs in order. */
  ghost function After(m: Index, runs: seq<Extent>, stride: nat): (r: Index)
    requires WellFormed(m) && RunsOk(runs)
    ensures WellFormed(r)
  {
    if |runs| == 0 then m else Step(After(m, runs[..|runs| - 1], stride), runs[|runs| - 1], stride)
  }

  ghost predicate Rejected(m: Index, runs: seq<Extent>, stride: nat, i: nat)
    requires WellFormed(m) && RunsOk(runs) && i < |runs|
  {
    Rejects(After(m, runs[..i], stride), runs[i])
  }

  ghost predicate InRun(e: Extent, b: nat)
  {
    e.start <= b < e.End()
  }

  lemma {:induction false} AfterOutside(m: Index, runs: seq<Extent>, stride: nat, b: nat)
    requires WellFormed(m) && RunsOk(runs) && forall i :: 0 <= i < |runs| ==> !InRun(runs[i], b)
    ensures Get(Denote(After(m, runs, stride), stride), b) == Get(Denote(m, stride), b)
  {
    hide Rejects, Denote, Inserted, WellFormed;
    if |runs| > 0 {
      var n := |runs| - 1;
      AfterOutside(m, runs[..n], stride, b);
      assert !InRun(runs[n], b);
      SumAt(Denote(After(m, runs[..n], stride), stride), Cells(runs[n], stride), b);
    }
  }

  /** A block of run i ends in it, or stays where it was if the guard rejected the run. */
  lemma {:induction false} AfterInside(m: Index, runs: seq<Extent>, stride: nat, i: nat, b: nat)
    requires WellFormed(m) && RunsOk(runs) && Apart(runs) && i < |runs| && InRun(runs[i], b)
    ensures Get(Denote(After(m, runs, stride), stride), b)
         == if Rejected(m, runs, stride, i) then Get(Denote(m, stride), b)
             else Some(runs[i].At(b - runs[i].start, stride))
    decreases |runs|
  {
    hide Rejects, Denote, Inserted, WellFormed;
    var n := |runs| - 1;
    var before := Denote(After(m, runs[..n], stride), stride);
    SumAt(before, Cells(runs[n], stride), b);
    if i == n {
      forall k | 0 <= k < n ensures !InRun(runs[..n][k], b) {
        assert runs[k].End() <= runs[n].start;
      }
      AfterOutside(m, runs[..n], stride, b);
    } else {
      assert runs[i].End() <= runs[n].start;
      assert runs[..n][..i] == runs[..i] && runs[..n][i] == runs[i];
      AfterInside(m, runs[..n], stride, i, b);
    }
  }

  // ----- When every record ends where it should -----

  ghost predicate Behind(d: map<nat, Loc>, b: nat, seqNum: nat)
  {
    b in d ==> d[b].seqNum <= seqNum
  }

  ghost predicate Ahead(d: map<nat, Loc>, b: nat, seqNum: nat)
  {
    b in d && d[b].seqNum >= seqNum
  }

  /** Block x of the run leans the way the guard decided the whole run. */
  ghost predicate LeansAt(d: map<nat, Loc>, e: Extent, rejected: bool, x: nat)
    requires x < |e.seqNums|
  {
    if rejected then Ahead(d, e.start + x, e.seqNums[x]) else Behind(d, e.start + x, e.seqNums[x])
  }

  /**
   Every run the guard rejects, against the map as the replay has left it by then,
   holds only blocks the map has already, and every run it accepts none the map
   has newer.
   */
  ghost predicate Leans(m: Index, runs: seq<Extent>, stride: nat)
    requires WellFormed(m) && RunsOk(runs)
  {
    forall i, x :: 0 <= i < |runs| && 0 <= x < runs[i].num ==>
      LeansAt(Denote(m, stride), runs[i], Rejected(m, runs, stride, i), x)
  }

  /** The map leads to record x in the chunks of a layout. */
  ghost predicate Reaches(g: Geometry, layout: Layout, d: map<nat, Loc>, x: Block)
  {
    x.block in d && exists p: nat :: HoldsAt(g, layout, d[x.block], x.block, p) && layout[d[x.block].chunk][p] == x
  }

  /**
   Block x.block ends at the newer of what d0 had and record x: where it was, if
   d0 had something newer, else in a new chunk, or in place if d0 had x itself.
   */
  ghost predicate EndsNewest(g: Geometry, d0: map<nat, Loc>, d: map<nat, Loc>, out: Layout, x: Block)
  {
    if x.block in d0 && d0[x.block].seqNum > x.seqNum then Get(d, x.block) == Get(d0, x.block)
    else Reaches(g, out, d, x) || (Drained(d0, x) && Get(d, x.block) == Get(d0, x.block))
  }

  ghost predicate MovesOrStays(g: Geometry, d0: map<nat, Loc>, d: map<nat, Loc>, out: Layout, x: Block)
  {
    Get(d, x.block) == Get(d0, x.block) || Reaches(g, out, d, x)
  }

  ghost predicate AllMoveOrStay(g: Geometry, d0: map<nat, Loc>, d: map<nat, Loc>, out: Layout,
                                records: map<nat, Block>)
  {
    forall b :: b in records ==> MovesOrStays(g, d0, d, out, records[b])
  }

  ghost predicate AllNewest(g: Geometry, d0: map<nat, Loc>, d: map<nat, Loc>, out: Layout, records: map<nat, Block>)
  {
    forall b :: b in records ==> EndsNewest(g, d0, d, out, records[b])
  }

  ghost predicate NoneFrom(d: map<nat, Loc>, base: nat)
  {
    forall b :: b in d ==> d[b].chunk < base
  }

  /** The layout of jobs uploaded under consecutive ids. */
  ghost predicate IsLayout(out: Layout, base: nat, jobs: seq<seq<Block>>)
  {
    && (forall id :: id in out <==> base <= id < base + |jobs|)
    && (forall k :: 0 <= k < |jobs| ==> base + k in out && out[base + k] == jobs[k])
  }

  /** A record of a rejected run. */
  lemma StayExact(g: Geometry, d0: map<nat, Loc>, d: map<nat, Loc>, base: nat, out: Layout, y: Block)
    requires NoneFrom(d0, base) && (forall id :: id in out ==> id >= base) && Get(d, y.block) == Get(d0, y.block)
    ensures EndsNewest(g, d0, d, out, y) <==> Ahead(d0, y.block, y.seqNum)
  {
  }

  /** A record of an accepted run. */
  lemma MoveExact(g: Geometry, d0: map<nat, Loc>, d: map<nat, Loc>, base: nat, out: Layout, y: Block, q: nat)
    requires NoneFrom(d0, base) && (forall id :: id in out ==> id >= base) && y.block in d
    requires HoldsAt(g, out, d[y.block], y.block, q) && out[d[y.block].chunk][q] == y
    ensures EndsNewest(g, d0, d, out, y) <==> Behind(d0, y.block, y.seqNum)
  {
  }

  /** One record: it ends newest exactly if its block leans with its run. */
  lemma RecordExact(g: Geometry, m: Index, base: nat, jobs: seq<seq<Block>>, out: Layout, k: nat, q: nat, r: nat,
                    x: nat)
    requires WellFormed(m) && NoneFrom(Denote(m, g.Stride()), base) && IsLayout(out, base, jobs)
    requires RunsOk(JobRuns(g, base, jobs)) && Apart(JobRuns(g, base, jobs)) && k < |jobs|
    requires r < |JobRuns(g, base, jobs)|
    requires CellIs(g, base + k, jobs[k], JobRuns(g, base, jobs)[r], x, q)
    ensures var runs := JobRuns(g, base, jobs);
            EndsNewest(g, Denote(m, g.Stride()), Denote(After(m, runs, g.Stride()), g.Stride()), out, jobs[k][q])
            <==> LeansAt(Denote(m, g.Stride()), runs[r], Rejected(m, runs, g.Stride(), r), x)
  {
    hide WellFormed, Denote, Rejected, JobRuns, RunsOk, Apart, After, EndsNewest, NoneFrom, Ahead, Behind;
    var runs, stride := JobRuns(g, base, jobs), g.Stride();
    var d0, d := Denote(m, stride), Denote(After(m, runs, stride), stride);
    var y := jobs[k][q];
    AfterInside(m, runs, stride, r, y.block);
    if Rejected(m, runs, stride, r) {
      StayExact(g, d0, d, base, out, y);
    } else {
      assert Get(d, y.block) == Some(runs[r].At(x, stride));
      assert HoldsAt(g, out, d[y.block], y.block, q) && out[d[y.block].chunk][q] == y;
      MoveExact(g, d0, d, base, out, y, q);
    }
  }

  /** One record: it is where the replay put it, or its block is where it was. */
  lemma RecordMoves(g: Geometry, m: Index, base: nat, jobs: seq<seq<Block>>, out: Layout, k: nat, q: nat)
    requires WellFormed(m) && IsLayout(out, base, jobs)
    requires RunsOk(JobRuns(g, base, jobs)) && Apart(JobRuns(g, base, jobs)) && k < |jobs| && q < |jobs[k]|
    ensures var d0, d := Denote(m, g.Stride()), Denote(After(m, JobRuns(g, base, jobs), g.Stride()), g.Stride());
            MovesOrStays(g, d0, d, out, jobs[k][q])
  {
    hide WellFormed, Denote, Rejected, JobRuns, RunsOk, Apart, After;
    var runs, stride := JobRuns(g, base, jobs), g.Stride();
    var d := Denote(After(m, runs, stride), stride);
    var y := jobs[k][q];
    var r, x := RecordHasRun(g, base, jobs, k, q);
    AfterInside(m, runs, stride, r, y.block);
    if !Rejected(m, runs, stride, r) {
      assert Get(d, y.block) == Some(runs[r].At(x, stride));
      assert HoldsAt(g, out, d[y.block], y.block, q) && out[d[y.block].chunk][q] == y;
    }
  }

  ghost predicate AllEnd(g: Geometry, d0: map<nat, Loc>, d: map<nat, Loc>, out: Layout, jobs: seq<seq<Block>>)
  {
    forall k, q :: 0 <= k < |jobs| && 0 <= q < |jobs[k]| ==> EndsNewest(g, d0, d, out, jobs[k][q])
  }

  lemma JobsExact(g: Geometry, m: Index, base: nat, jobs: seq<seq<Block>>, out: Layout)
    requires WellFormed(m) && NoneFrom(Denote(m, g.Stride()), base) && IsLayout(out, base, jobs)
    requires RunsOk(JobRuns(g, base, jobs)) && Apart(JobRuns(g, base, jobs))
    ensures AllEnd(g, Denote(m, g.Stride()), Denote(After(m, JobRuns(g, base, jobs), g.Stride()), g.Stride()), out,
            jobs)
       <==> Leans(m, JobRuns(g, base, jobs), g.Stride())
  {
    hide WellFormed, Denote, Rejected, JobRuns, RunsOk, Apart, EndsNewest, LeansAt, IsLayout, NoneFrom;
    var runs, stride := JobRuns(g, base, jobs), g.Stride();
    var d0, d := Denote(m, stride), Denote(After(m, runs, stride), stride);
    if Leans(m, runs, stride) {
      forall k, q | 0 <= k < |jobs| && 0 <= q < |jobs[k]| ensures EndsNewest(g, d0, d, out, jobs[k][q]) {
        var r, x := RecordHasRun(g, base, jobs, k, q);
        RecordExact(g, m, base, jobs, out, k, q, r, x);
      }
    }
    if AllEnd(g, d0, d, out, jobs) {
      forall r, x | 0 <= r < |runs| && 0 <= x < runs[r].num
        ensures x < |runs[r].seqNums| && LeansAt(d0, runs[r], Rejected(m, runs, stride, r), x)
      {
        var k, q := RunHasRecord(g, base, jobs, r, x);
        RecordExact(g, m, base, jobs, out, k, q, r, x);
      }
    }
  }

  // ----- From chunks back to the records -----

  lemma {:induction false} ChunkedMember(n: nat, sorted: seq<Block>, k: nat, q: nat)
    requires n > 0 && k < |Chunked(n, sorted)| && q < |Chunked(n, sorted)[k]|
    ensures Chunked(n, sorted)[k][q] in sorted
    decreases |sorted|
  {
    if |sorted| > n && k > 0 {
      ChunkedMember(n, sorted[n..], k - 1, q);
    }
  }

  lemma {:induction false} ChunkedCovers(n: nat, sorted: seq<Block>, i: nat) returns (k: nat, q: nat)
    requires n > 0 && i < |sorted|
    ensures k < |Chunked(n, sorted)| && q < |Chunked(n, sorted)[k]| && Chunked(n, sorted)[k][q] == sorted[i]
    decreases |sorted|
  {
    if i < n || |sorted| <= n {
      k, q := 0, i;
    } else {
      k, q := ChunkedCovers(n, sorted[n..], i - n);
      k := k + 1;
    }
  }

  lemma WinnersEnd(g: Geometry, d0: map<nat, Loc>, d: map<nat, Loc>, out: Layout, all: seq<Block>, sorted: seq<Block>)
    requires Consolidated(all, sorted)
    ensures AllEnd(g, d0, d, out, Chunked(g.ChunkBlocks(), sorted)) <==> AllNewest(g, d0, d, out, Newest(all))
  {
    hide EndsNewest, Chunked;
    var n := g.ChunkBlocks();
    var jobs := Chunked(n, sorted);
    if AllEnd(g, d0, d, out, jobs) {
      forall b | b in Newest(all) ensures EndsNewest(g, d0, d, out, Newest(all)[b]) {
        var i :| 0 <= i < |sorted| && Numbers(sorted)[i] == b;
        var k, q := ChunkedCovers(n, sorted, i);
        assert EndsNewest(g, d0, d, out, jobs[k][q]);
      }
    }
    if AllNewest(g, d0, d, out, Newest(all)) {
      forall k, q | 0 <= k < |jobs| && 0 <= q < |jobs[k]| ensures EndsNewest(g, d0, d, out, jobs[k][q]) {
        ChunkedMember(n, sorted, k, q);
        var i :| 0 <= i < |sorted| && sorted[i] == jobs[k][q];
        assert Newest(all)[sorted[i].block] == sorted[i];
      }
    }
  }

  ghost predicate OthersStay(d0: map<nat, Loc>, d: map<nat, Loc>, records: map<nat, Block>)
  {
    forall b: nat :: b !in records ==> Get(d, b) == Get(d0, b)
  }

  /** Each cell of the replay is the winner of its block. */
  lemma CellWins(g: Geometry, base: nat, all: seq<Block>, sorted: seq<Block>, r: nat, x: nat)
    requires Consolidated(all, sorted) && r < |ReplayRuns(g, base, sorted)| && x < ReplayRuns(g, base, sorted)[r].num
    ensures var e := ReplayRuns(g, base, sorted)[r];
            x < |e.seqNums| && e.chunk >= base && e.start + x in Newest(all)
                && Newest(all)[e.start + x].seqNum == e.seqNums[x]
  {
    hide Chunked, JobRuns;
    var jobs := Chunked(g.ChunkBlocks(), sorted);
    var k, q := RunHasRecord(g, base, jobs, r, x);
    ChunkedMember(g.ChunkBlocks(), sorted, k, q);
    var i :| 0 <= i < |sorted| && sorted[i] == jobs[k][q];
  }

  /**
   A replay leaves every record at its block's newest write exactly when every run
   leans; blocks without records stay in any case.
   */
  lemma ReplayExact(g: Geometry, m: Index, base: nat, all: seq<Block>, sorted: seq<Block>, out: Layout)
    requires WellFormed(m) && NoneFrom(Denote(m, g.Stride()), base) && Consolidated(all, sorted)
    requires IsLayout(out, base, Chunked(g.ChunkBlocks(), sorted)) && RunsOk(ReplayRuns(g, base, sorted))
    ensures var d0, d := Denote(m, g.Stride()), Denote(After(m, ReplayRuns(g, base, sorted), g.Stride()), g.Stride());
            && (AllNewest(g, d0, d, out, Newest(all)) <==> Leans(m, ReplayRuns(g, base, sorted), g.Stride()))
            && OthersStay(d0, d, Newest(all))
  {
    hide WellFormed, Denote, Chunked, JobRuns, IsLayout, NoneFrom, AllEnd, AllNewest, Leans, Newest, After, RunsOk,
        Apart;
    var runs := ReplayRuns(g, base, sorted);
    var d0, d := Denote(m, g.Stride()), Denote(After(m, runs, g.Stride()), g.Stride());
    ReplayRunsApart(g, base, sorted);
    JobsExact(g, m, base, Chunked(g.ChunkBlocks(), sorted), out);
    WinnersEnd(g, d0, d, out, all, sorted);
    forall b: nat | b !in Newest(all) ensures Get(d, b) == Get(d0, b) {
      forall r | 0 <= r < |runs| ensures !InRun(runs[r], b) {
        if InRun(runs[r], b) {
          CellWins(g, base, all, sorted, r, b - runs[r].start);
        }
      }
      AfterOutside(m, runs, g.Stride(), b);
    }
  }

  lemma ReplayMoves(g: Geometry, m: Index, base: nat, all: seq<Block>, sorted: seq<Block>, out: Layout)
    requires WellFormed(m) && Consolidated(all, sorted)
    requires IsLayout(out, base, Chunked(g.ChunkBlocks(), sorted)) && RunsOk(ReplayRuns(g, base, sorted))
    ensures var d0, d := Denote(m, g.Stride()), Denote(After(m, ReplayRuns(g, base, sorted), g.Stride()), g.Stride());
            AllMoveOrStay(g, d0, d, out, Newest(all))
  {
    hide WellFormed, Denote, Chunked, JobRuns, IsLayout, Newest, After, RunsOk, Apart, MovesOrStays;
    var d0, d := Denote(m, g.Stride()), Denote(After(m, ReplayRuns(g, base, sorted), g.Stride()), g.Stride());
    SortedIncreases(all, sorted);
    ReplayRunsApart(g, base, sorted);
    forall b | b in Newest(all) ensures MovesOrStays(g, d0, d, out, Newest(all)[b]) {
      var i :| 0 <= i < |sorted| && Numbers(sorted)[i] == b;
      var k, q := ChunkedCovers(g.ChunkBlocks(), sorted, i);
      RecordMoves(g, m, base, Chunked(g.ChunkBlocks(), sorted), out, k, q);
    }
  }

  // ----- What the new chunks hold -----

  ghost predicate IsWinnerOf(records: map<nat, Block>, x: Block)
  {
    x.block in records && records[x.block] == x
  }

  /** The new chunks hold winners only, each chunk sorted and not overfull. */
  ghost predicate OutOk(g: Geometry, out: Layout, records: map<nat, Block>, next: nat)
  {
    && (forall id :: id in out ==> id < next && Increasing(Numbers(out[id])) && |out[id]| <= g.ChunkBlocks())
    && (forall id, q :: id in out && 0 <= q < |out[id]| ==> IsWinnerOf(records, out[id][q]))
  }

  ghost predicate InSome(out: Layout, x: Block)
  {
    exists id, q :: id in out && 0 <= q < |out[id]| && out[id][q] == x
  }

  ghost predicate OutHasAll(out: Layout, records: map<nat, Block>)
  {
    forall b :: b in records ==> InSome(out, records[b])
  }

  lemma {:induction false} ChunkedSorted(n: nat, sorted: seq<Block>, k: nat)
    requires n > 0 && k < |Chunked(n, sorted)| && Increasing(Numbers(sorted))
    ensures Increasing(Numbers(Chunked(n, sorted)[k])) && |Chunked(n, sorted)[k]| <= n
    decreases |sorted|
  {
    if |sorted| > n {
      assert forall i :: 0 <= i < n ==> Numbers(sorted[..n])[i] == Numbers(sorted)[i];
      assert forall i :: 0 <= i < |sorted| - n ==> Numbers(sorted[n..])[i] == Numbers(sorted)[n + i];
      if k > 0 {
        ChunkedSorted(n, sorted[n..], k - 1);
      }
    }
  }

  lemma ReplayLayout(g: Geometry, base: nat, all: seq<Block>, sorted: seq<Block>, out: Layout)
    requires Consolidated(all, sorted) && IsLayout(out, base, Chunked(g.ChunkBlocks(), sorted))
    ensures OutOk(g, out, Newest(all), base + |Chunked(g.ChunkBlocks(), sorted)|) && OutHasAll(out, Newest(all))
  {
    hide Chunked, Newest, Increasing;
    var n := g.ChunkBlocks();
    var jobs := Chunked(n, sorted);
    SortedIncreases(all, sorted);
    forall id | id in out
      ensures Increasing(Numbers(out[id])) && |out[id]| <= n
      ensures forall q :: 0 <= q < |out[id]| ==> IsWinnerOf(Newest(all), out[id][q])
    {
      var k := id - base;
      assert out[base + k] == jobs[k];
      ChunkedSorted(n, sorted, k);
      forall q | 0 <= q < |out[id]| ensures IsWinnerOf(Newest(all), out[id][q]) {
        ChunkedMember(n, sorted, k, q);
        var i :| 0 <= i < |sorted| && sorted[i] == jobs[k][q];
      }
    }
    forall b | b in Newest(all) ensures InSome(out, Newest(all)[b]) {
      var i :| 0 <= i < |sorted| && Numbers(sorted)[i] == b;
      var k, q := ChunkedCovers(n, sorted, i);
      assert base + k in out && out[base + k] == jobs[k];
    }
  }

  // ----- Replays that always lean -----

  ghost predicate NewerThanAll(d: map<nat, Loc>, seqNum: nat)
  {
    forall b :: b in d ==> d[b].seqNum < seqNum
  }

  /** Every winner is drained already or newer than the whole map. */
  ghost predicate InOrder(d: map<nat, Loc>, winners: map<nat, Block>)
  {
    forall b :: b in winners ==> Drained(d, winners[b]) || NewerThanAll(d, winners[b].seqNum)
  }

  /** No new block directly follows a drained one. */
  ghost predicate NoNewNeighbour(d: map<nat, Loc>, winners: map<nat, Block>)
  {
    forall b: nat :: b in winners && b + 1 in winners && Drained(d, winners[b]) ==> Drained(d, winners[b + 1])
  }

  /** Where the replay has put a block, or left it. */
  lemma AfterChunk(m: Index, runs: seq<Extent>, stride: nat, base: nat, b: nat)
    requires WellFormed(m) && RunsOk(runs) && Apart(runs) && forall i :: 0 <= i < |runs| ==> runs[i].chunk >= base
    ensures var d := Denote(After(m, runs, stride), stride);
            Get(d, b) == Get(Denote(m, stride), b) || (b in d && d[b].chunk >= base)
  {
    hide WellFormed, Denote, After, Rejected;
    if i :| 0 <= i < |runs| && InRun(runs[i], b) {
      AfterInside(m, runs, stride, i, b);
    } else {
      AfterOutside(m, runs, stride, b);
    }
  }

  /** The guard lets a run through whose first block is newer than the whole original map. */
  lemma NewPasses(m: Index, runs: seq<Extent>, stride: nat, base: nat, i: nat)
    requires WellFormed(m) && RunsOk(runs) && Apart(runs) && i < |runs|
    requires forall k :: 0 <= k < |runs| ==> runs[k].chunk >= base
    requires NoneFrom(Denote(m, stride), base) && NewerThanAll(Denote(m, stride), runs[i].seqNums[0])
    ensures !Rejected(m, runs, stride, i)
  {
    hide After;
    var e, before := runs[i], After(m, runs[..i], stride);
    var d0, d := Denote(m, stride), Denote(before, stride);
    if k :| Covers(before, k, e.start) && before[k].seqNums[0] >= e.seqNums[0] {
      FindAt(before, stride, k, e.start);
      assert Get(d, e.start) == Some(before[k].At(e.start - k, stride));
      forall j | 0 <= j < i ensures !InRun(runs[..i][j], e.start) {
        assert runs[j].End() <= runs[i].start;
      }
      AfterOutside(m, runs[..i], stride, e.start);
      assert Covers(before, k, k);
      FindAt(before, stride, k, k);
      AfterChunk(m, runs[..i], stride, base, k);
      assert false;
    }
  }

  /** Cell x of the run is the winner of its block. */
  ghost predicate IsWinner(winners: map<nat, Block>, e: Extent, x: nat)
    requires |e.seqNums| == e.num
  {
    && x < e.num && e.start + x in winners
    && winners[e.start + x].block == e.start + x && winners[e.start + x].seqNum == e.seqNums[x]
  }

  lemma {:induction false} DrainedChain(d: map<nat, Loc>, winners: map<nat, Block>, e: Extent, x: nat)
    requires NoNewNeighbour(d, winners) && |e.seqNums| == e.num && x < e.num
    requires forall i: nat :: i < e.num ==> IsWinner(winners, e, i)
    requires Ahead(d, e.start, e.seqNums[0]) && d[e.start].seqNum == e.seqNums[0]
    ensures e.start + x in d && d[e.start + x].seqNum == e.seqNums[x]
  {
    assert IsWinner(winners, e, x);
    if x > 0 {
      DrainedChain(d, winners, e, x - 1);
      assert IsWinner(winners, e, x - 1);
      assert e.start + (x - 1) + 1 == e.start + x;
    }
  }

  lemma InOrderLeansAt(d: map<nat, Loc>, winners: map<nat, Block>, e: Extent, rejected: bool, x: nat)
    requires InOrder(d, winners) && NoNewNeighbour(d, winners) && e.Ok() && |e.seqNums| == e.num && x < e.num
    requires forall i: nat :: i < e.num ==> IsWinner(winners, e, i)
    requires NewerThanAll(d, e.seqNums[0]) ==> !rejected
    ensures LeansAt(d, e, rejected, x)
  {
    assert IsWinner(winners, e, 0) && IsWinner(winners, e, x);
    if rejected {
      DrainedChain(d, winners, e, x);
    }
  }

  /** After in-order drains a replay leans if no new block directly follows a drained one. */
  lemma InOrderLeans(g: Geometry, m: Index, base: nat, all: seq<Block>, sorted: seq<Block>)
    requires WellFormed(m) && NoneFrom(Denote(m, g.Stride()), base) && Consolidated(all, sorted)
    requires InOrder(Denote(m, g.Stride()), Newest(all)) && NoNewNeighbour(Denote(m, g.Stride()), Newest(all))
    ensures RunsOk(ReplayRuns(g, base, sorted)) && Leans(m, ReplayRuns(g, base, sorted), g.Stride())
  {
    hide WellFormed, Denote, InOrder, NoNewNeighbour, NoneFrom, Apart, NewerThanAll, Rejected, ReplayRuns,
        Consolidated, LeansAt;
    var runs, stride := ReplayRuns(g, base, sorted), g.Stride();
    SortedIncreases(all, sorted);
    ReplayRunsApart(g, base, sorted);
    forall r | 0 <= r < |runs| ensures runs[r].chunk >= base {
      CellWins(g, base, all, sorted, r, 0);
    }
    forall r, x | 0 <= r < |runs| && 0 <= x < runs[r].num
      ensures LeansAt(Denote(m, stride), runs[r], Rejected(m, runs, stride, r), x)
    {
      if NewerThanAll(Denote(m, stride), runs[r].seqNums[0]) {
        NewPasses(m, runs, stride, base, r);
      }
      forall i: nat | i < runs[r].num ensures IsWinner(Newest(all), runs[r], i) {
        CellWins(g, base, all, sorted, r, i);
      }
      InOrderLeansAt(Denote(m, stride), Newest(all), runs[r], Rejected(m, runs, stride, r), x);
    }
  }

  lemma SortedIncreases(all: seq<Block>, sorted: seq<Block>)
    requires Consolidated(all, sorted)
    ensures Increasing(Numbers(sorted))
  {
  }
}
