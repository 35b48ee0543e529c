/** Block writes, and how a drain keeps the newest of each before packing chunks. */
module Blocks {
  import opened Bytes
  import opened Sorting

  /** One block-sized write, tagged with its SeqNum. */
  datatype Block = Block(seqNum: nat, block: nat, len: nat, data: seq<byte>)

  /** Keeps, per block number, the first record with the highest SeqNum. */
  function Newest(blocks: seq<Block>): (m: map<nat, Block>)
    ensures forall b :: b in m ==> m[b].block == b
  {
    if |blocks| == 0 then map[]
    else
      var x := blocks[|blocks| - 1];
      var m := Newest(blocks[..|blocks| - 1]);
      if x.block !in m || m[x.block].seqNum < x.seqNum then m[x.block := x] else m
  }

  lemma {:induction false} NewestSound(blocks: seq<Block>, b: nat)
    ensures b in Newest(blocks) ==> Newest(blocks)[b] in blocks
    ensures forall i :: 0 <= i < |blocks| && blocks[i].block == b ==>
              b in Newest(blocks) && blocks[i].seqNum <= Newest(blocks)[b].seqNum
  {
    if |blocks| != 0 {
      var n := |blocks| - 1;
      NewestSound(blocks[..n], b);
      assert blocks == blocks[..n] + [blocks[n]];
    }
  }

  /** No two different records of one block share a SeqNum. */
  ghost predicate DistinctSeqNums(blocks: seq<Block>)
  {
    forall x, y :: x in blocks && y in blocks && x.block == y.block && x.seqNum == y.seqNum ==> x == y
  }

  /** With distinct SeqNums the winner depends on which records there are, not on their order. */
  lemma NewestOrderFree(a: seq<Block>, c: seq<Block>)
    requires DistinctSeqNums(a)
    requires forall x :: x in a <==> x in c
    ensures Newest(a) == Newest(c)
  {
    forall b: nat
      ensures b in Newest(a) <==> b in Newest(c)
      ensures b in Newest(a) && b in Newest(c) ==> Newest(a)[b] == Newest(c)[b]
    {
      NewestSound(a, b);
      NewestSound(c, b);
      if b in Newest(a) {
        var i :| 0 <= i < |c| && c[i] == Newest(a)[b];
      }
      if b in Newest(c) {
        var j :| 0 <= j < |a| && a[j] == Newest(c)[b];
      }
    }
  }

  // ----- The consolidated list -----

  ghost function Numbers(blocks: seq<Block>): (s: seq<nat>)
    ensures |s| == |blocks| && forall i :: 0 <= i < |s| ==> s[i] == blocks[i].block
  {
    seq(|blocks|, i requires 0 <= i < |blocks| => blocks[i].block)
  }

  /** out lists exactly the given records, by ascending block number. */
  ghost predicate Enumerates(winners: map<nat, Block>, out: seq<Block>)
  {
    && Increasing(Numbers(out))
    && (forall i :: 0 <= i < |out| ==> out[i].block in winners && winners[out[i].block] == out[i])
    && (forall b :: b in winners ==> b in Numbers(out))
  }

  ghost predicate Consolidated(blocks: seq<Block>, out: seq<Block>)
  {
    Enumerates(Newest(blocks), out)
  }

  lemma ConsolidatedUnique(a: seq<Block>, c: seq<Block>, x: seq<Block>, y: seq<Block>)
    requires Consolidated(a, x) && Consolidated(c, y) && Newest(a) == Newest(c)
    ensures x == y
  {
    forall b: nat ensures b in Numbers(x) <==> b in Numbers(y) {
      if b in Numbers(x) {
        var i :| 0 <= i < |x| && x[i].block == b;
      }
      if b in Numbers(y) {
        var i :| 0 <= i < |y| && y[i].block == b;
      }
    }
    IncreasingUnique(Numbers(x), Numbers(y));
    forall i | 0 <= i < |x| ensures x[i] == y[i] {
      assert Numbers(x)[i] == Numbers(y)[i];
    }
  }

  lemma EnumerationGrows(winners: map<nat, Block>, b: nat, front: seq<Block>)
    requires b in winners && winners[b].block == b && Enumerates(winners - {b}, front)
    requires forall x :: x in winners ==> x <= b
    ensures Enumerates(winners, front + [winners[b]])
  {
    var out := front + [winners[b]];
    forall i | 0 <= i < |front|
      ensures front[i].block in winners && winners[front[i].block] == front[i] && Numbers(front)[i] < b
    {
      assert front[i].block in winners - {b};
    }
    forall x | x in winners ensures x in Numbers(out) {
      if x == b {
        assert Numbers(out)[|front|] == b;
      } else {
        assert x in winners - {b};
        var i :| 0 <= i < |front| && Numbers(front)[i] == x;
        assert Numbers(out)[i] == x;
      }
    }
    assert forall i :: 0 <= i < |front| ==> Numbers(out)[i] == Numbers(front)[i];
  }

  lemma {:induction false} EnumerationExists(winners: map<nat, Block>) returns (out: seq<Block>)
    requires forall b :: b in winners ==> winners[b].block == b
    ensures Enumerates(winners, out)
    decreases |winners|
  {
    if winners == map[] {
      out := [];
    } else {
      hide Enumerates;
      var b := Greatest(winners.Keys);
      out := EnumerationExists(winners - {b});
      EnumerationGrows(winners, b, out);
      out := out + [winners[b]];
    }
  }

  lemma ConsolidatedExists(blocks: seq<Block>) returns (out: seq<Block>)
    ensures Consolidated(blocks, out)
  {
    out := EnumerationExists(Newest(blocks));
  }

  lemma {:induction false} NewestSize(blocks: seq<Block>)
    ensures |Newest(blocks).Keys| <= |blocks|
  {
    if |blocks| != 0 {
      var n := |blocks| - 1;
      NewestSize(blocks[..n]);
      assert Newest(blocks).Keys <= Newest(blocks[..n]).Keys + {blocks[n].block};
      SubsetSize(Newest(blocks).Keys, Newest(blocks[..n]).Keys + {blocks[n].block});
    }
  }

  /** Consolidation never lengthens a log. */
  lemma ConsolidatedSize(blocks: seq<Block>, out: seq<Block>)
    requires Consolidated(blocks, out)
    ensures |out| <= |blocks|
  {
    NewestSize(blocks);
    forall i | 0 <= i < |out| ensures Numbers(out)[i] in Newest(blocks).Keys {
      assert out[i].block in Newest(blocks);
    }
    IncreasingSize(Numbers(out), Newest(blocks).Keys);
  }

  /** Deduplicates a log (highest SeqNum wins) and sorts it by block number. */
  method Consolidate(blocks: seq<Block>) returns (out: seq<Block>)
    ensures Consolidated(blocks, out)
  {
    var winners: map<nat, Block> := map[];
    for i := 0 to |blocks|
      invariant winners == Newest(blocks[..i])
    {
      var x := blocks[i];
      assert blocks[..i + 1][..i] == blocks[..i];
      if x.block !in winners || winners[x.block].seqNum < x.seqNum {
        winners := winners[x.block := x];
      }
    }
    assert blocks[..|blocks|] == blocks;
    var keys := SortKeys(winners.Keys);
    out := [];
    for i := 0 to |keys|
      invariant |out| == i
      invariant forall j :: 0 <= j < i ==> out[j] == winners[keys[j]]
    {
      assert keys[i] in keys;
      out := out + [winners[keys[i]]];
    }
    assert Numbers(out) == keys;
  }

  // ----- Sharded logs -----

  const NUM_SHARDS := 16

  function ShardOf(blocks: seq<Block>, shard: nat): (s: seq<Block>)
    ensures forall x :: x in s <==> x in blocks && x.block % NUM_SHARDS == shard
  {
    if |blocks| == 0 then []
    else
      var n := |blocks| - 1;
      assert blocks == blocks[..n] + [blocks[n]];
      if blocks[n].block % NUM_SHARDS == shard then ShardOf(blocks[..n], shard) + [blocks[n]]
      else ShardOf(blocks[..n], shard)
  }

  /** Concatenates the shard logs in shard order and consolidates the result. */
  method ConsolidateShards(shards: seq<seq<Block>>, ghost log: seq<Block>) returns (out: seq<Block>)
    requires |shards| == NUM_SHARDS && DistinctSeqNums(log)
    requires forall i :: 0 <= i < NUM_SHARDS ==> shards[i] == ShardOf(log, i)
    ensures Consolidated(log, out) && forall single :: Consolidated(log, single) ==> out == single
  {
    var all: seq<Block> := [];
    for i := 0 to NUM_SHARDS
      invariant forall x :: x in all <==> x in log && x.block % NUM_SHARDS < i
    {
      all := all + shards[i];
    }
    out := Consolidate(all);
    NewestOrderFree(log, all);
    forall single | Consolidated(log, single) ensures out == single {
      ConsolidatedUnique(all, log, out, single);
    }
  }
}
