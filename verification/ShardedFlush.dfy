/**
 Flushing into sixteen shard logs at once. Each shard takes its records in order
 until an append fails; the others go on.
 */
module ShardedFlush {
  import opened Extents
  import opened Blocks
  import opened VolumeState
  import opened Drain

  /** How many records before position i belong to the same shard. */
  function Earlier(writes: seq<Block>, i: nat, shard: nat): nat
    requires i <= |writes|
  {
    if i == 0 then 0
    else Earlier(writes, i - 1, shard) + if writes[i - 1].block % NUM_SHARDS == shard then 1 else 0
  }

  /** Shard k accepts its first accepted(k) records. */
  predicate Accepted(writes: seq<Block>, accepted: nat -> nat, i: nat)
    requires i < |writes|
  {
    Earlier(writes, i, writes[i].block % NUM_SHARDS) < accepted(writes[i].block % NUM_SHARDS)
  }

  /** The records that reach a log among the first n, in buffer order. */
  function Logged(writes: seq<Block>, accepted: nat -> nat, n: nat): seq<Block>
    requires n <= |writes|
  {
    if n == 0 then []
    else if Accepted(writes, accepted, n - 1) then Logged(writes, accepted, n - 1) + [writes[n - 1]]
    else Logged(writes, accepted, n - 1)
  }

  ghost predicate Reached(writes: seq<Block>, accepted: nat -> nat, n: nat, x: Block)
    requires n <= |writes|
  {
    exists i :: 0 <= i < n && Accepted(writes, accepted, i) && writes[i] == x
  }

  lemma {:induction false} LoggedMember(writes: seq<Block>, accepted: nat -> nat, n: nat, x: Block)
    requires n <= |writes|
    ensures x in Logged(writes, accepted, n) <==> Reached(writes, accepted, n, x)
  {
    hide Accepted;
    if n > 0 {
      LoggedMember(writes, accepted, n - 1, x);
      if Reached(writes, accepted, n - 1, x) {
        var i :| 0 <= i < n - 1 && Accepted(writes, accepted, i) && writes[i] == x;
        assert i < n;
      }
    }
  }

  /** What the flush leaves in the buffer. */
  function Left(writes: seq<Block>, accepted: nat -> nat): seq<Block>
  {
    Remaining(writes, NumberSet(Logged(writes, accepted, |writes|)))
  }

  /** Record i stays: no record of its block reached a log. */
  ghost predicate Stays(writes: seq<Block>, accepted: nat -> nat, i: nat)
    requires i < |writes|
  {
    forall j :: 0 <= j < |writes| && Accepted(writes, accepted, j) ==> writes[j].block != writes[i].block
  }

  lemma StaysIs(writes: seq<Block>, accepted: nat -> nat, i: nat)
    requires i < |writes|
    ensures Stays(writes, accepted, i) <==> writes[i] in Left(writes, accepted)
  {
    hide Logged, Accepted, Remaining, NumberSet;
    var log := Logged(writes, accepted, |writes|);
    if !Stays(writes, accepted, i) {
      var j :| 0 <= j < |writes| && Accepted(writes, accepted, j) && writes[j].block == writes[i].block;
      LoggedMember(writes, accepted, |writes|, writes[j]);
      var k :| 0 <= k < |log| && log[k] == writes[j];
    }
    if writes[i].block in NumberSet(log) {
      var k :| 0 <= k < |log| && log[k].block == writes[i].block;
      LoggedMember(writes, accepted, |writes|, log[k]);
    }
  }

  // ----- Shard by shard -----

  function Take(s: seq<Block>, n: nat): seq<Block>
  {
    if n < |s| then s[..n] else s
  }

  lemma ShardGrows(blocks: seq<Block>, x: Block, shard: nat)
    ensures ShardOf(blocks + [x], shard)
         == if x.block % NUM_SHARDS == shard then ShardOf(blocks, shard) + [x] else ShardOf(blocks, shard)
  {
    assert (blocks + [x])[..|blocks|] == blocks;
  }

  /** Each shard's part of the logged records is the front of its group. */
  lemma {:induction false} LoggedByShard(writes: seq<Block>, accepted: nat -> nat, n: nat, shard: nat)
    requires n <= |writes|
    ensures |ShardOf(writes[..n], shard)| == Earlier(writes, n, shard)
    ensures ShardOf(Logged(writes, accepted, n), shard) == Take(ShardOf(writes[..n], shard), accepted(shard))
  {
    hide ShardOf, Take;
    if n == 0 {
      EmptyShard(shard);
      TakeGrows([], [], accepted(shard));
    } else {
      var x := writes[n - 1];
      LoggedByShard(writes, accepted, n - 1, shard);
      assert writes[..n] == writes[..n - 1] + [x];
      ShardGrows(writes[..n - 1], x, shard);
      TakeGrows(ShardOf(writes[..n - 1], shard), [x], accepted(shard));
      if Accepted(writes, accepted, n - 1) {
        ShardGrows(Logged(writes, accepted, n - 1), x, shard);
      }
    }
  }

  lemma TakeGrows(s: seq<Block>, more: seq<Block>, n: nat)
    ensures Take([], n) == []
    ensures |more| == 1 ==> Take(s + more, n) == if |s| < n then Take(s, n) + more else Take(s, n)
  {
  }

  lemma EmptyShard(shard: nat)
    ensures ShardOf([], shard) == []
  {
  }

  /** Groups the buffer by shard. */
  method GroupByShard(writes: seq<Block>) returns (groups: seq<seq<Block>>)
    ensures |groups| == NUM_SHARDS && forall k :: 0 <= k < NUM_SHARDS ==> groups[k] == ShardOf(writes, k)
  {
    hide ShardOf;
    groups := seq(NUM_SHARDS, _ => []);
    forall k | 0 <= k < NUM_SHARDS ensures groups[k] == ShardOf(writes[..0], k) {
      EmptyShard(k);
    }
    for i := 0 to |writes|
      invariant |groups| == NUM_SHARDS && forall k :: 0 <= k < NUM_SHARDS ==> groups[k] == ShardOf(writes[..i], k)
    {
      var idx := writes[i].block % NUM_SHARDS;
      assert writes[..i + 1] == writes[..i] + [writes[i]];
      forall k | 0 <= k < NUM_SHARDS
        ensures ShardOf(writes[..i + 1], k)
             == if k == idx then ShardOf(writes[..i], k) + [writes[i]] else ShardOf(writes[..i], k)
      {
        ShardGrows(writes[..i], writes[i], k);
      }
      groups := groups[idx := groups[idx] + [writes[i]]];
    }
    assert writes[..|writes|] == writes;
  }

  lemma AllTaken(writes: seq<Block>, accepted: nat -> nat, logs: seq<seq<Block>>, n: nat)
    requires n <= NUM_SHARDS == |logs|
    requires forall k :: 0 <= k < n ==> logs[k] == ShardOf(Logged(writes, accepted, |writes|), k)
    requires forall k :: n <= k < NUM_SHARDS ==> logs[k] == ShardOf(writes, k)
    ensures n < NUM_SHARDS ==> Take(logs[n], accepted(n)) == ShardOf(Logged(writes, accepted, |writes|), n)
  {
    if n < NUM_SHARDS {
      LoggedByShard(writes, accepted, |writes|, n);
      assert writes[..|writes|] == writes;
    }
  }

  /** The block numbers that reached some shard log. */
  lemma FlushedNumbers(log: seq<Block>, flushed: set<nat>)
    requires forall b :: b in flushed <==> exists k :: 0 <= k < NUM_SHARDS && b in NumberSet(ShardOf(log, k))
    ensures flushed == NumberSet(log)
  {
    forall b ensures b in flushed <==> b in NumberSet(log) {
      if b in NumberSet(log) {
        var i :| 0 <= i < |log| && log[i].block == b;
        assert log[i] in ShardOf(log, b % NUM_SHARDS);
        var j :| 0 <= j < |ShardOf(log, b % NUM_SHARDS)| && ShardOf(log, b % NUM_SHARDS)[j] == log[i];
        assert b in NumberSet(ShardOf(log, b % NUM_SHARDS));
      }
      if b in flushed {
        var k :| 0 <= k < NUM_SHARDS && b in NumberSet(ShardOf(log, k));
        var j :| 0 <= j < |ShardOf(log, k)| && ShardOf(log, k)[j].block == b;
        assert ShardOf(log, k)[j] in log;
        var i :| 0 <= i < |log| && log[i] == ShardOf(log, k)[j];
      }
    }
  }

  /** Appends each shard's group to its log until an append fails, then filters the buffer by block number. */
  method FlushLockedSharded(writes: seq<Block>, accepted: nat -> nat)
    returns (logs: seq<seq<Block>>, remaining: seq<Block>)
    ensures |logs| == NUM_SHARDS && remaining == Left(writes, accepted)
    ensures forall k :: 0 <= k < NUM_SHARDS ==> logs[k] == ShardOf(Logged(writes, accepted, |writes|), k)
  {
    hide ShardOf, Logged, Remaining, NumberSet, Take;
    ghost var log := Logged(writes, accepted, |writes|);
    logs := GroupByShard(writes);
    var flushed: set<nat> := {};
    for k := 0 to NUM_SHARDS
      invariant |logs| == NUM_SHARDS
      invariant forall i :: 0 <= i < k ==> logs[i] == ShardOf(log, i)
      invariant forall i :: k <= i < NUM_SHARDS ==> logs[i] == ShardOf(writes, i)
      invariant forall b :: b in flushed <==> exists i :: 0 <= i < k && b in NumberSet(ShardOf(log, i))
    {
      AllTaken(writes, accepted, logs, k);
      logs := logs[k := Take(logs[k], accepted(k))];
      flushed := flushed + NumberSet(logs[k]);
    }
    FlushedNumbers(log, flushed);
    remaining := Remaining(writes, flushed);
  }

  // ----- Order -----

  /** No record that stays is older than one that was logged. */
  ghost predicate InOrder(writes: seq<Block>, accepted: nat -> nat)
  {
    forall i, j :: 0 <= i < j < |writes| && Accepted(writes, accepted, j) ==> !Stays(writes, accepted, i)
  }

  lemma MembersOrdered(wal: seq<Block>, writes: seq<Block>, i: nat, j: nat)
    requires Ordered(wal + writes) && i < |writes| && j < |writes|
    ensures writes[i].seqNum < writes[j].seqNum <==> i < j
    ensures writes[i] == writes[j] ==> i == j
  {
    assert (wal + writes)[|wal| + i] == writes[i] && (wal + writes)[|wal| + j] == writes[j];
  }

  lemma WalBelow(wal: seq<Block>, writes: seq<Block>, k: nat, i: nat)
    requires Ordered(wal + writes) && k < |wal| && i < |writes|
    ensures wal[k].seqNum < writes[i].seqNum
  {
    assert (wal + writes)[k] == wal[k] && (wal + writes)[|wal| + i] == writes[i];
  }

  /**
   Everything logged is older than everything left, which the next drains rely on,
   exactly when no shard logged a record behind one that another shard left.
   */
  lemma FlushInOrder(wal: seq<Block>, writes: seq<Block>, accepted: nat -> nat)
    requires Ordered(wal + writes)
    ensures AllBelow(wal + Logged(writes, accepted, |writes|), Left(writes, accepted)) <==> InOrder(writes, accepted)
  {
    hide Logged, Accepted, Remaining, NumberSet, Stays, Left, Ordered;
    var log, left := Logged(writes, accepted, |writes|), Left(writes, accepted);
    if InOrder(writes, accepted) {
      forall a, c | 0 <= a < |wal + log| && 0 <= c < |left| ensures (wal + log)[a].seqNum < left[c].seqNum {
        LeftMember(writes, accepted, left[c]);
        var i :| 0 <= i < |writes| && writes[i] == left[c] && Stays(writes, accepted, i);
        if a < |wal| {
          WalBelow(wal, writes, a, i);
        } else {
          LoggedMember(writes, accepted, |writes|, log[a - |wal|]);
          var j :| 0 <= j < |writes| && Accepted(writes, accepted, j) && writes[j] == log[a - |wal|];
          NotBoth(writes, accepted, i, j);
          MembersOrdered(wal, writes, j, i);
        }
      }
    }
    if AllBelow(wal + log, left) {
      forall i, j | 0 <= i < j < |writes| && Accepted(writes, accepted, j) ensures !Stays(writes, accepted, i) {
        if Stays(writes, accepted, i) {
          StaysIs(writes, accepted, i);
          LoggedMember(writes, accepted, |writes|, writes[j]);
          var a :| 0 <= a < |log| && log[a] == writes[j];
          var c :| 0 <= c < |left| && left[c] == writes[i];
          assert (wal + log)[|wal| + a] == writes[j];
          MembersOrdered(wal, writes, i, j);
        }
      }
    }
  }

  lemma LeftMember(writes: seq<Block>, accepted: nat -> nat, x: Block)
    requires x in Left(writes, accepted)
    ensures exists i :: 0 <= i < |writes| && writes[i] == x && Stays(writes, accepted, i)
  {
    hide Logged, NumberSet, Stays;
    var i :| 0 <= i < |writes| && writes[i] == x;
    StaysIs(writes, accepted, i);
  }

  lemma NotBoth(writes: seq<Block>, accepted: nat -> nat, i: nat, j: nat)
    requires i < |writes| && j < |writes| && Stays(writes, accepted, i) && Accepted(writes, accepted, j)
    ensures i != j
  {
  }

  /**
   What happens otherwise. Record y is logged before the older x of the next block,
   and drained in one run with an older record z of x's block. The guard then
   rejects x, whatever else the map holds.
   */
  lemma LateRecordRejected(m: Index, stride: nat, y: Block, z: Block, x: Block, chunk: nat, offset: nat, e: Extent)
    requires WellFormed(m) && x.block == z.block == y.block + 1 && z.seqNum < x.seqNum < y.seqNum
    requires e.Ok() && e.start == x.block && e.seqNums[0] == x.seqNum
    ensures var run := Extent(y.block, 2, chunk, offset, [y.seqNum, z.seqNum]);
            WellFormed(Inserted(m, run, stride)) && Rejects(Inserted(m, run, stride), e)
  {
    hide Trimmed, Denote, Cells;
    var run := Extent(y.block, 2, chunk, offset, [y.seqNum, z.seqNum]);
    InsertedDenotes(m, run, stride);
    assert Covers(Inserted(m, run, stride), y.block, e.start);
  }
}
