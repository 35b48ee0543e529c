/**
 UnifiedBlockStore: one entry per block still in memory, one run per group of
 blocks already uploaded. The 16 index shards only spread lock contention, so
 the sharded entries are one map here.
 */
module BlockStore {
  import opened Bytes
  import opened Extents
  import opened Sorting
  import opened BlocksToObjectMap

  datatype BlockState = Empty | Hot | Pending | Persisted | Cached

  datatype Entry = Entry(data: seq<byte>, seqNum: nat, state: BlockState)

  /** What ReadEntry hands back. */
  datatype Answer =
    | Missing
    | InMemory(entry: Entry)
    | Uploaded(loc: Loc)

  predicate Matches(entries: map<nat, Entry>, b: nat, seqNum: nat)
  {
    b in entries && entries[b].state.Pending? && entries[b].seqNum == seqNum
  }

  /** The entries after a write carrying seqNum; an older generation never replaces a newer one. */
  function Written(entries: map<nat, Entry>, b: nat, data: seq<byte>, seqNum: nat): map<nat, Entry>
  {
    var entry := if b in entries then entries[b] else Entry([], 0, Empty);
    if seqNum > entry.seqNum then entries[b := Entry(data, seqNum, Hot)] else entries[b := entry]
  }

  /** The entries after the flush of b reached the WAL. */
  function Flushed(entries: map<nat, Entry>, b: nat): map<nat, Entry>
  {
    if b in entries && entries[b].state.Hot? then entries[b := entries[b].(state := Pending)] else entries
  }

  ghost function Resolve(entries: map<nat, Entry>, located: map<nat, Loc>, b: nat): Answer
  {
    if b in entries then InMemory(entries[b])
    else if b in located then Uploaded(located[b])
    else Missing
  }

  function SeqNumOf(a: Answer): nat
  {
    match a
    case Missing => 0
    case InMemory(entry) => entry.seqNum
    case Uploaded(loc) => loc.seqNum
  }

  /**
   The store compares a late write only with the entry in memory: the block keeps
   its newest SeqNum exactly when such an entry exists or the write is not older
   than the uploaded block it would hide.
   */
  lemma LateWriteKeepsNewest(entries: map<nat, Entry>, located: map<nat, Loc>, b: nat, data: seq<byte>, seqNum: nat)
    ensures SeqNumOf(Resolve(Written(entries, b, data, seqNum), located, b)) >= SeqNumOf(Resolve(entries, located, b))
       <==> b in entries || b !in located || seqNum >= located[b].seqNum
  {
  }

  /** The locations given to the first n blocks of an upload, for the eligible ones. */
  function Placed(blocks: seq<nat>, seqNums: seq<nat>, eligible: seq<bool>, chunk: nat, offset: nat, stride: nat,
                  n: nat): map<nat, Loc>
    requires n <= |blocks| == |seqNums| == |eligible|
  {
    if n == 0 then map[]
    else
      var before := Placed(blocks, seqNums, eligible, chunk, offset, stride, n - 1);
      if eligible[n - 1] then before[blocks[n - 1] := Loc(chunk, offset + Times(n - 1, stride), seqNums[n - 1])]
      else before
  }

  function Eligible(entries: map<nat, Entry>, blocks: seq<nat>, seqNums: seq<nat>): (e: seq<bool>)
    requires |blocks| == |seqNums|
    ensures |e| == |blocks|
    ensures forall i :: 0 <= i < |e| ==> e[i] == Matches(entries, blocks[i], seqNums[i])
  {
    seq(|blocks|, i requires 0 <= i < |blocks| => Matches(entries, blocks[i], seqNums[i]))
  }

  /** The eligible blocks among the first n. */
  function Chosen(blocks: seq<nat>, eligible: seq<bool>, n: nat): set<nat>
    requires n <= |blocks| == |eligible|
  {
    if n == 0 then {}
    else Chosen(blocks, eligible, n - 1) + (if eligible[n - 1] then {blocks[n - 1]} else {})
  }

  lemma {:induction false} PlacedKeys(blocks: seq<nat>, seqNums: seq<nat>, eligible: seq<bool>, chunk: nat,
                                      offset: nat, stride: nat, n: nat)
    requires n <= |blocks| == |seqNums| == |eligible|
    ensures Placed(blocks, seqNums, eligible, chunk, offset, stride, n).Keys == Chosen(blocks, eligible, n)
  {
    if n != 0 {
      PlacedKeys(blocks, seqNums, eligible, chunk, offset, stride, n - 1);
    }
  }

  lemma {:induction false} PlacedAt(blocks: seq<nat>, seqNums: seq<nat>, eligible: seq<bool>, chunk: nat,
                                    offset: nat, stride: nat, n: nat, i: nat)
    requires i < n <= |blocks| == |seqNums| == |eligible|
    requires Increasing(blocks)
    ensures eligible[i] ==>
              && blocks[i] in Placed(blocks, seqNums, eligible, chunk, offset, stride, n)
              && Placed(blocks, seqNums, eligible, chunk, offset, stride, n)[blocks[i]]
                  == Loc(chunk, offset + Times(i, stride), seqNums[i])
  {
    if i < n - 1 {
      PlacedAt(blocks, seqNums, eligible, chunk, offset, stride, n - 1, i);
    }
  }

  /** The block is logged with exactly this write, and waits for its upload. */
  ghost predicate Awaiting(entries: map<nat, Entry>, b: nat, seqNum: nat)
  {
    b in entries && entries[b].state == Pending && entries[b].seqNum == seqNum
  }

  /** An upload takes out of memory exactly the blocks that wait for it. */
  lemma RetiredExact(entries: map<nat, Entry>, blocks: seq<nat>, seqNums: seq<nat>)
    requires |blocks| == |seqNums|
    ensures var left := entries - Chosen(blocks, Eligible(entries, blocks, seqNums), |blocks|);
            forall b :: b in entries && b !in left <==>
              exists i :: 0 <= i < |blocks| && Awaiting(entries, blocks[i], seqNums[i]) && blocks[i] == b
  {
    var eligible := Eligible(entries, blocks, seqNums);
    forall b ensures b in Chosen(blocks, eligible, |blocks|) <==>
              exists i :: 0 <= i < |blocks| && Awaiting(entries, blocks[i], seqNums[i]) && blocks[i] == b
    {
      ChosenIn(blocks, eligible, |blocks|, b);
      assert forall i :: 0 <= i < |blocks| ==> eligible[i] == Awaiting(entries, blocks[i], seqNums[i]);
    }
  }

  lemma {:induction false} ChosenIn(blocks: seq<nat>, eligible: seq<bool>, n: nat, b: nat)
    requires n <= |blocks| == |eligible|
    ensures b in Chosen(blocks, eligible, n) <==> exists i :: 0 <= i < n && blocks[i] == b && eligible[i]
  {
    if n != 0 {
      ChosenIn(blocks, eligible, n - 1, b);
    }
  }

  lemma RetireNext(entries: map<nat, Entry>, blocks: seq<nat>, eligible: seq<bool>, i: nat)
    requires i < |blocks| == |eligible| && Increasing(blocks)
    ensures blocks[i] !in Chosen(blocks, eligible, i)
    ensures blocks[i] in entries - Chosen(blocks, eligible, i) <==> blocks[i] in entries
    ensures blocks[i] in entries ==> (entries - Chosen(blocks, eligible, i))[blocks[i]] == entries[blocks[i]]
    ensures entries - Chosen(blocks, eligible, i) - {blocks[i]} == entries - (Chosen(blocks, eligible, i) + {blocks[i]})
  {
    ChosenIn(blocks, eligible, i, blocks[i]);
  }

  /** The run the upload loop builds from positions [i, j). */
  function RunOf(blocks: seq<nat>, seqNums: seq<nat>, chunk: nat, offset: nat, stride: nat, i: nat, j: nat): Extent
    requires i < j <= |blocks| == |seqNums|
  {
    Extent(blocks[i], j - i, chunk, offset + Times(i, stride), seqNums[i..j])
  }

  ghost predicate Consecutive(blocks: seq<nat>, i: nat, j: nat)
    requires i <= j <= |blocks|
  {
    forall x :: i <= x < j ==> blocks[x] == blocks[i] + (x - i)
  }

  lemma {:induction false} RunPlaced(blocks: seq<nat>, seqNums: seq<nat>, eligible: seq<bool>, chunk: nat,
                                     offset: nat, stride: nat, i: nat, j: nat)
    requires i < j <= |blocks| == |seqNums| == |eligible|
    requires forall x :: i <= x < j ==> eligible[x]
    requires Consecutive(blocks, i, j)
    ensures RunOf(blocks, seqNums, chunk, offset, stride, i, j).Ok()
    ensures Placed(blocks, seqNums, eligible, chunk, offset, stride, i)
            + Cells(RunOf(blocks, seqNums, chunk, offset, stride, i, j), stride)
         == Placed(blocks, seqNums, eligible, chunk, offset, stride, j)
  {
    hide Cells;
    var before := Placed(blocks, seqNums, eligible, chunk, offset, stride, i);
    var long := RunOf(blocks, seqNums, chunk, offset, stride, i, j);
    if j == i + 1 {
      OneCell(long, stride, blocks[i], long.At(0, stride));
    } else {
      var short := RunOf(blocks, seqNums, chunk, offset, stride, i, j - 1);
      RunPlaced(blocks, seqNums, eligible, chunk, offset, stride, i, j - 1);
      OneMoreCell(short, long, stride);
      TimesAdd(i, j - 1 - i, stride);
      PlusUpdate(before, Cells(short, stride), blocks[j - 1], long.At(j - 1 - i, stride));
    }
  }

  lemma OneCell(e: Extent, stride: nat, b: nat, l: Loc)
    requires e.Ok() && e.num == 1 && b == e.start && l == e.At(0, stride)
    ensures Cells(e, stride) == map[b := l]
  {
    forall x: nat ensures Get(Cells(e, stride), x) == Get(map[b := l], x) {
    }
    SameMap(Cells(e, stride), map[b := l]);
  }

  lemma OneMoreCell(short: Extent, long: Extent, stride: nat)
    requires short.Ok() && long.Ok() && long.num == short.num + 1
    requires short.start == long.start && short.chunk == long.chunk && short.offset == long.offset
    requires short.seqNums[..short.num] == long.seqNums[..short.num]
    ensures Cells(long, stride) == Cells(short, stride)[long.start + short.num := long.At(short.num, stride)]
  {
    var d := Cells(short, stride)[long.start + short.num := long.At(short.num, stride)];
    forall x: nat ensures Get(Cells(long, stride), x) == Get(d, x) {
      assert Get(d, x) == if x == long.start + short.num then Some(long.At(short.num, stride))
          else Get(Cells(short, stride), x);
      if long.start <= x < short.End() {
        assert short.seqNums[..short.num][x - long.start] == long.seqNums[..short.num][x - long.start];
      }
    }
    SameMap(Cells(long, stride), d);
  }

  function RangeBlocks(e: Extent): (s: seq<nat>)
    ensures |s| == e.num && forall i :: 0 <= i < e.num ==> s[i] == e.start + i
  {
    seq(e.num, i requires 0 <= i < e.num => e.start + i)
  }

  /** Marking every block of a run places exactly the run's cells. */
  lemma AllPlaced(e: Extent, stride: nat, all: seq<bool>)
    requires e.Ok() && |all| == e.num && forall i :: 0 <= i < e.num ==> all[i]
    ensures Placed(RangeBlocks(e), e.seqNums[..e.num], all, e.chunk, e.offset, stride, e.num) == Cells(e, stride)
  {
    var blocks, seqNums := RangeBlocks(e), e.seqNums[..e.num];
    RunPlaced(blocks, seqNums, all, e.chunk, e.offset, stride, 0, e.num);
    var run := RunOf(blocks, seqNums, e.chunk, e.offset, stride, 0, e.num);
    forall b: nat ensures Get(map[] + Cells(run, stride), b) == Get(Cells(e, stride), b) {
      assert Get(map[] + Cells(run, stride), b) == Get(Cells(run, stride), b);
    }
    SameMap(map[] + Cells(run, stride), Cells(e, stride));
  }

  /** Extends an eligible run from position i as far as it goes, up to MAX_RUN blocks. */
  method RunEnd(blocks: seq<nat>, eligible: seq<bool>, i: nat) returns (j: nat)
    requires i < |blocks| == |eligible| && eligible[i]
    ensures i < j <= |blocks| && j - i <= MAX_RUN
    ensures forall x :: i <= x < j ==> eligible[x]
    ensures Consecutive(blocks, i, j)
    ensures j == |blocks| || j - i == MAX_RUN || !eligible[j] || blocks[j] != blocks[i] + (j - i)
  {
    j := i + 1;
    while j < |blocks| && eligible[j] && j - i < MAX_RUN && blocks[j] == blocks[i] + (j - i)
      invariant i < j <= |blocks| && j - i <= MAX_RUN
      invariant forall x :: i <= x < j ==> eligible[x]
      invariant Consecutive(blocks, i, j)
    {
      j := j + 1;
    }
  }

  class UnifiedBlockStore {
    var entries: map<nat, Entry>
    var extents: Index
    const stride: nat

    ghost predicate Valid()
      reads this
    {
      WellFormed(extents)
    }

    ghost function Located(): map<nat, Loc>
      requires Valid()
      reads this
    {
      Denote(extents, stride)
    }

    constructor (stride: nat)
      ensures Valid() && entries == map[] && Located() == map[] && this.stride == stride
    {
      this.stride := stride;
      entries, extents := map[], map[];
      new;
      SameMap(Denote(extents, stride), map[]);
    }

    method ReadEntry(b: nat) returns (a: Answer)
      requires Valid()
      ensures a == Resolve(entries, Located(), b)
    {
      if b in entries {
        return InMemory(entries[b]);
      }
      assert Get(Located(), b) == Find(extents, stride, b);
      if b in extents {
        assert Covers(extents, b, b);
        FindAt(extents, stride, b, b);
        return Uploaded(extents[b].At(0, stride));
      }
      var todo := extents.Keys;
      while todo != {}
        invariant todo <= extents.Keys
        invariant forall k :: k in extents && k !in todo ==> !Covers(extents, k, b)
      {
        var k :| k in todo;
        if k < b < extents[k].End() {
          FindAt(extents, stride, k, b);
          return Uploaded(extents[k].At(b - k, stride));
        }
        todo := todo - {k};
      }
      return Missing;
    }

    method WriteWithSeqNum(b: nat, data: seq<byte>, seqNum: nat)
      modifies this`entries
      ensures entries == Written(old(entries), b, data, seqNum)
    {
      var entry := if b in entries then entries[b] else Entry([], 0, Empty);
      if seqNum > entry.seqNum {
        entry := Entry(data, seqNum, Hot);
      }
      entries := entries[b := entry];
    }

    method MarkPending(b: nat) returns (moved: bool)
      modifies this`entries
      ensures entries == Flushed(old(entries), b)
      ensures moved <==> b in old(entries) && old(entries)[b].state.Hot?
    {
      moved := b in entries && entries[b].state.Hot?;
      if moved {
        entries := entries[b := entries[b].(state := Pending)];
      }
    }

    /** Removes [ns, ns + num) from the uploaded runs, keeping heads and tails. */
    method FractureOverlaps(ns: nat, num: nat)
      requires Valid() && num > 0
      modifies this`extents
      ensures Valid() && Clear(extents, ns, ns + num)
      ensures Located() - Span(ns, ns + num) == old(Located()) - Span(ns, ns + num)
    {
      var ne := ns + num;
      var todo := extents.Keys;
      while todo != {}
        invariant Valid()
        invariant todo <= extents.Keys
        invariant forall k :: k in extents && k !in todo ==> !Overlaps(extents[k], ns, ne)
        invariant Located() - Span(ns, ne) == old(Located()) - Span(ns, ne)
      {
        var k :| k in todo;
        todo := todo - {k};
        if Overlaps(extents[k], ns, ne) {
          FractureAll(extents, false, map[], k, ns, ne, stride);
          extents := Fracture(extents, k, ns, ne, stride);
        }
      }
    }

    method InstallRun(run: Extent)
      requires Valid() && run.Ok()
      modifies this`extents
      ensures Valid() && Located() == old(Located()) + Cells(run, stride)
    {
      FractureOverlaps(run.start, run.num);
      InsertDenotes(extents, stride, run);
      OverrideSpan(Located(), old(Located()), run, stride);
      extents := extents[run.start := run];
    }

    /** Pass 1 of MarkPersistedRange: predicts which blocks still carry the uploaded write. */
    method SampleEligible(blocks: seq<nat>, seqNums: seq<nat>) returns (eligible: seq<bool>)
      requires |blocks| == |seqNums|
      ensures eligible == Eligible(entries, blocks, seqNums)
    {
      eligible := [];
      for i := 0 to |blocks|
        invariant |eligible| == i
        invariant forall x :: 0 <= x < i ==> eligible[x] == Matches(entries, blocks[x], seqNums[x])
      {
        eligible := eligible + [Matches(entries, blocks[i], seqNums[i])];
      }
    }

    /** Pass 2: installs every eligible consecutive sub-run in the extent index. */
    method InstallEligible(blocks: seq<nat>, chunk: nat, offset: nat, seqNums: seq<nat>, eligible: seq<bool>)
      requires Valid() && |blocks| == |seqNums| == |eligible|
      modifies this`extents
      ensures Valid()
      ensures Located() == old(Located()) + Placed(blocks, seqNums, eligible, chunk, offset, stride, |blocks|)
    {
      var i := 0;
      while i < |blocks|
        invariant 0 <= i <= |blocks| && Valid()
        invariant Located() == old(Located()) + Placed(blocks, seqNums, eligible, chunk, offset, stride, i)
      {
        if !eligible[i] {
          i := i + 1;
        } else {
          var j := RunEnd(blocks, eligible, i);
          RunPlaced(blocks, seqNums, eligible, chunk, offset, stride, i, j);
          PlusAssociates(old(Located()), Placed(blocks, seqNums, eligible, chunk, offset, stride, i),
                         Cells(RunOf(blocks, seqNums, chunk, offset, stride, i, j), stride));
          InstallRun(RunOf(blocks, seqNums, chunk, offset, stride, i, j));
          i := j;
        }
      }
    }

    /** Pass 3: drops the shard entries that still match what was uploaded. */
    method RetireEntries(blocks: seq<nat>, seqNums: seq<nat>, eligible: seq<bool>) returns (transitioned: nat)
      requires |blocks| == |seqNums| == |eligible| && Increasing(blocks)
      requires forall i :: 0 <= i < |blocks| ==> eligible[i] == Matches(entries, blocks[i], seqNums[i])
      modifies this`entries
      ensures entries == old(entries) - Chosen(blocks, eligible, |blocks|)
      ensures transitioned == |Chosen(blocks, eligible, |blocks|)|
    {
      transitioned := 0;
      var left := entries;
      for i := 0 to |blocks|
        invariant entries == old(entries)
        invariant left == entries - Chosen(blocks, eligible, i)
        invariant transitioned == |Chosen(blocks, eligible, i)|
      {
        RetireNext(entries, blocks, eligible, i);
        if eligible[i] && Matches(left, blocks[i], seqNums[i]) {
          left := left - {blocks[i]};
          transitioned := transitioned + 1;
        }
      }
      entries := left;
    }

    /** Moves the still-matching blocks of an uploaded run from the shards to the extent index. */
    method MarkPersistedRange(blocks: seq<nat>, chunk: nat, offset: nat, seqNums: seq<nat>) returns (transitioned: nat)
      requires Valid() && Increasing(blocks)
      modifies this
      ensures Valid()
      ensures |blocks| != |seqNums| ==> entries == old(entries) && extents == old(extents) && transitioned == 0
      ensures |blocks| == |seqNums| ==>
        && Located() == old(Located()) + Placed(blocks, seqNums, Eligible(old(entries), blocks, seqNums), chunk,
                                                offset, stride, |blocks|)
        && entries == old(entries) - Chosen(blocks, Eligible(old(entries), blocks, seqNums), |blocks|)
        && transitioned == |Chosen(blocks, Eligible(old(entries), blocks, seqNums), |blocks|)|
        && forall b :: b in old(entries) && b !in entries <==>
             exists i :: 0 <= i < |blocks| && Awaiting(old(entries), blocks[i], seqNums[i]) && blocks[i] == b
    {
      if |blocks| != |seqNums| {
        return 0;
      }
      var eligible := SampleEligible(blocks, seqNums);
      InstallEligible(blocks, chunk, offset, seqNums, eligible);
      ghost var before := entries;
      transitioned := RetireEntries(blocks, seqNums, eligible);
      RetiredExact(before, blocks, seqNums);
    }

    /** Installs a run read back from a checkpoint, unconditionally. */
    method SetPersistedRange(blocks: seq<nat>, chunk: nat, offset: nat, seqNums: seq<nat>)
      requires Valid()
      modifies this`extents
      ensures Valid()
      ensures |blocks| != |seqNums| ==> extents == old(extents)
      ensures |blocks| == |seqNums| ==>
        Located() == old(Located())
                     + Placed(blocks, seqNums, seq(|blocks|, _ => true), chunk, offset, stride, |blocks|)
    {
      if |blocks| == |seqNums| {
        InstallEligible(blocks, chunk, offset, seqNums, seq(|blocks|, _ => true));
      }
    }

    /** Starts over with the runs of a loaded map, in whatever order it yields them. */
    method Load(m: Index)
      requires WellFormed(m)
      modifies this
      ensures Valid() && entries == map[] && Located() == Denote(m, stride)
    {
      entries, extents := map[], map[];
      ghost var sub: Index := map[];
      var todo := m.Keys;
      while todo != {}
        invariant Valid() && entries == map[]
        invariant todo <= m.Keys && sub.Keys == m.Keys - todo && SubIndex(sub, m)
        invariant WellFormed(sub) && Located() == Denote(sub, stride)
      {
        var k :| k in todo;
        SubIndexClear(sub, m, k);
        InsertDenotes(sub, stride, m[k]);
        AllPlaced(m[k], stride, seq(m[k].num, _ => true));
        SetPersistedRange(RangeBlocks(m[k]), m[k].chunk, m[k].offset, m[k].seqNums[..m[k].num]);
        sub := sub[k := m[k]];
        todo := todo - {k};
      }
      assert sub == m;
    }
  }
}
