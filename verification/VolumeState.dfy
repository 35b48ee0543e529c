/**
 What a running volume keeps true, as a predicate over the values it holds, and
 the effect of each pipeline step on it.
 */
module VolumeState {
  import opened Bytes
  import opened Extents
  import opened Blocks
  import opened Chunks
  import opened BlockStore
  import opened Checkpoint

  /** The values of a volume that matter for what a guest can read. */
  datatype View = View(
    entries: map<nat, Entry>,          // UnifiedBlockStore, blocks in memory
    located: map<nat, Loc>,            // UnifiedBlockStore, uploaded blocks
    mapped: map<nat, Loc>,             // BlocksToObject
    saved: Option<map<nat, Loc>>,      // the live checkpoint on the backend
    writes: seq<Block>,                // Writes.Blocks
    wal: seq<Block>,                   // the current WAL segment
    stranded: set<Block>,              // acknowledged records no later drain will pick up
    dropped: set<Block>,               // of these, the ones no log file holds either
    retained: seq<Block>,              // rotated segments, whose files stay on disk
    settled: Option<nat>,              // how much of retained the live checkpoint covers
    packed: Layout,                    // what each chunk was built from
    present: set<nat>,                 // chunks on the backend
    latest: map<nat, Block>,           // each block's newest write
    wrote: map<nat, Block>,            // the write each SeqNum was given to
    seqNum: nat,
    objectNum: nat)
  {
    function Log(): seq<Block> { wal + writes }

    /** Everything this process logged or is about to log, oldest first. */
    function History(): seq<Block> { retained + Log() }
  }

  /** A real write of its block: superseded, or exactly the newest. */
  ghost predicate Genuine(latest: map<nat, Block>, x: Block)
  {
    && x.block in latest && x.seqNum <= latest[x.block].seqNum
    && (x.seqNum == latest[x.block].seqNum ==> x == latest[x.block])
  }

  ghost predicate Ordered(log: seq<Block>)
  {
    forall i, j :: 0 <= i < j < |log| ==> log[i].seqNum < log[j].seqNum
  }

  ghost predicate AllBelow(a: seq<Block>, c: seq<Block>)
  {
    forall i, j :: 0 <= i < |a| && 0 <= j < |c| ==> a[i].seqNum < c[j].seqNum
  }

  lemma OrderedConcat(a: seq<Block>, c: seq<Block>)
    ensures Ordered(a + c) <==> Ordered(a) && Ordered(c) && AllBelow(a, c)
  {
    var s := a + c;
    if Ordered(s) {
      assert forall i :: 0 <= i < |a| ==> s[i] == a[i];
      assert forall j :: 0 <= j < |c| ==> s[|a| + j] == c[j];
    }
  }

  // ----- The invariant, clause by clause -----

  ghost predicate LatestOk(g: Geometry, latest: map<nat, Block>, seqNum: nat)
  {
    forall b :: b in latest ==> latest[b].block == b && Sized(g, latest[b]) && 0 < latest[b].seqNum <= seqNum
  }

  ghost predicate LogOk(log: seq<Block>, latest: map<nat, Block>, seqNum: nat)
  {
    && Ordered(log)
    && forall i :: 0 <= i < |log| ==> Genuine(latest, log[i]) && log[i].seqNum <= seqNum
  }

  ghost predicate LogSized(g: Geometry, log: seq<Block>)
  {
    forall i :: 0 <= i < |log| ==> Sized(g, log[i])
  }

  ghost predicate PackedReal(g: Geometry, packed: Layout, latest: map<nat, Block>)
  {
    && LayoutOk(g, packed)
    && forall o, i :: o in packed && 0 <= i < |packed[o]| ==> Genuine(latest, packed[o][i])
  }

  /** Memory holds newest writes only, and each is still on its way to a chunk. */
  ghost predicate EntriesOk(v: View)
  {
    forall b :: b in v.entries ==> EntryOk(v, b)
  }

  ghost predicate EntryOk(v: View, b: nat)
    requires b in v.entries
  {
    && b in v.latest
    && v.entries[b].seqNum == v.latest[b].seqNum && v.entries[b].data == v.latest[b].data
    && (v.entries[b].state.Hot? || v.entries[b].state.Pending?)
    && (v.entries[b].state.Hot? ==> v.latest[b] in v.writes)
    && (v.entries[b].state.Pending? ==> v.latest[b] in v.wal || v.latest[b] in v.stranded)
  }

  /** A block no longer in memory is uploaded, and both indexes agree where. */
  ghost predicate Settled(v: View)
  {
    && (forall b :: b in v.latest && b !in v.entries ==>
          b in v.mapped && b in v.located && v.located[b] == v.mapped[b] && v.mapped[b].seqNum == v.latest[b].seqNum)
    && (forall b :: b in v.located ==> b in v.latest)
  }

  /** Every location of a map is real and its chunk is there. */
  ghost predicate MapReal(g: Geometry, v: View, m: map<nat, Loc>)
  {
    forall b :: b in m ==>
      b in v.latest && Holds(g, v.packed, m[b], b) && m[b].chunk in v.present && m[b].chunk < v.objectNum
  }

  /** In-order drain: everything mapped is older than everything still logged. */
  ghost predicate MapBelowLog(m: map<nat, Loc>, log: seq<Block>)
  {
    forall b, i :: b in m && 0 <= i < |log| ==> m[b].seqNum < log[i].seqNum
  }

  ghost predicate Coherent(g: Geometry, v: View)
  {
    && LatestOk(g, v.latest, v.seqNum)
    && LogOk(v.Log(), v.latest, v.seqNum) && LogSized(g, v.Log())
    && PackedReal(g, v.packed, v.latest)
    && EntriesOk(v)
    && Settled(v)
    && MapReal(g, v, v.mapped)
    && (v.saved.Some? ==> MapReal(g, v, v.saved.value))
    && MapBelowLog(v.mapped, v.Log())
    && v.mapped.Keys <= v.latest.Keys
  }

  lemma InitiallyCoherent(g: Geometry, v: View)
    requires v.entries == map[] && v.located == map[] && v.mapped == map[] && v.saved.None?
    requires v.writes == [] && v.wal == [] && v.packed == map[] && v.latest == map[]
    ensures Coherent(g, v)
  {
  }

  // ----- A block write -----

  function AfterWrite(v: View, x: Block): View
  {
    v.(entries := Written(v.entries, x.block, x.data, x.seqNum),
       writes := v.writes + [x],
       latest := v.latest[x.block := x],
       wrote := v.wrote[x.seqNum := x],
       seqNum := x.seqNum)
  }

  lemma GenuineAfterWrite(latest: map<nat, Block>, x: Block, y: Block)
    requires Genuine(latest, y) && (x.block in latest ==> latest[x.block].seqNum < x.seqNum)
    ensures Genuine(latest[x.block := x], y)
  {
  }

  lemma WriteLogOk(v: View, x: Block)
    requires LogOk(v.Log(), v.latest, v.seqNum) && x.seqNum == v.seqNum + 1
    requires x.block in v.latest ==> v.latest[x.block].seqNum < x.seqNum
    ensures LogOk(AfterWrite(v, x).Log(), AfterWrite(v, x).latest, x.seqNum)
  {
    var log := v.Log();
    assert AfterWrite(v, x).Log() == log + [x];
    OrderedConcat(log, [x]);
    forall i | 0 <= i < |log + [x]|
      ensures Genuine(v.latest[x.block := x], (log + [x])[i]) && (log + [x])[i].seqNum <= x.seqNum
    {
      if i < |log| {
        GenuineAfterWrite(v.latest, x, log[i]);
      }
    }
  }

  lemma WritePackedReal(g: Geometry, packed: Layout, latest: map<nat, Block>, x: Block)
    requires PackedReal(g, packed, latest) && (x.block in latest ==> latest[x.block].seqNum < x.seqNum)
    ensures PackedReal(g, packed, latest[x.block := x])
  {
    forall o, i | o in packed && 0 <= i < |packed[o]|
      ensures Genuine(latest[x.block := x], packed[o][i])
    {
      GenuineAfterWrite(latest, x, packed[o][i]);
    }
  }

  lemma WriteEntriesOk(g: Geometry, v: View, x: Block)
    requires EntriesOk(v) && LatestOk(g, v.latest, v.seqNum) && x.seqNum == v.seqNum + 1
    ensures EntriesOk(AfterWrite(v, x))
  {
    var w := AfterWrite(v, x);
    assert w.writes[|v.writes|] == x;
    forall b | b in w.entries && b != x.block && w.entries[b].state.Hot?
      ensures w.latest[b] in w.writes
    {
      assert v.latest[b] in v.writes;
    }
  }

  lemma WriteMaps(g: Geometry, v: View, x: Block)
    requires Settled(v) && MapReal(g, v, v.mapped) && (v.saved.Some? ==> MapReal(g, v, v.saved.value))
    requires x.seqNum > 0
    ensures Settled(AfterWrite(v, x)) && MapReal(g, AfterWrite(v, x), v.mapped)
    ensures v.saved.Some? ==> MapReal(g, AfterWrite(v, x), v.saved.value)
  {
  }

  lemma WriteBelowLog(g: Geometry, v: View, x: Block)
    requires Coherent(g, v) && Sized(g, x) && x.seqNum == v.seqNum + 1
    ensures MapBelowLog(v.mapped, AfterWrite(v, x).Log()) && LogSized(g, AfterWrite(v, x).Log())
  {
    var log := AfterWrite(v, x).Log();
    assert log == v.Log() + [x];
    forall b, i | b in v.mapped && 0 <= i < |log| ensures v.mapped[b].seqNum < log[i].seqNum {
      if i == |v.Log()| {
        MappedIsOld(g, v, b);
      }
    }
  }

  lemma WriteCoherent(g: Geometry, v: View, x: Block)
    requires Coherent(g, v) && Sized(g, x) && x.seqNum == v.seqNum + 1
    ensures Coherent(g, AfterWrite(v, x))
  {
    hide LogOk, PackedReal, EntriesOk, Settled, MapReal, MapBelowLog, LogSized, Written;
    WriteLogOk(v, x);
    WritePackedReal(g, v.packed, v.latest, x);
    WriteEntriesOk(g, v, x);
    WriteMaps(g, v, x);
    WriteBelowLog(g, v, x);
  }

  lemma MappedIsOld(g: Geometry, v: View, b: nat)
    requires MapReal(g, v, v.mapped) && PackedReal(g, v.packed, v.latest) && LatestOk(g, v.latest, v.seqNum)
    requires b in v.mapped
    ensures v.mapped[b].seqNum <= v.latest[b].seqNum <= v.seqNum
  {
    var p: nat :| HoldsAt(g, v.packed, v.mapped[b], b, p);
    assert Genuine(v.latest, v.packed[v.mapped[b].chunk][p]);
  }

  // ----- A flush that gets n records into the WAL -----

  function NumberSet(blocks: seq<Block>): (s: set<nat>)
    ensures forall b :: b in s <==> exists i :: 0 <= i < |blocks| && blocks[i].block == b
  {
    set i | 0 <= i < |blocks| :: blocks[i].block
  }

  /** The buffered records whose block was not flushed at all. */
  function Remaining(blocks: seq<Block>, flushed: set<nat>): (s: seq<Block>)
    ensures forall x :: x in s <==> x in blocks && x.block !in flushed
  {
    if |blocks| == 0 then []
    else
      var n := |blocks| - 1;
      assert blocks == blocks[..n] + [blocks[n]];
      if blocks[n].block in flushed then Remaining(blocks[..n], flushed)
      else Remaining(blocks[..n], flushed) + [blocks[n]]
  }

  /** The entries after MarkPending ran for every flushed record. */
  function FlushedAll(entries: map<nat, Entry>, blocks: seq<Block>): map<nat, Entry>
  {
    if |blocks| == 0 then entries
    else Flushed(FlushedAll(entries, blocks[..|blocks| - 1]), blocks[|blocks| - 1].block)
  }

  /** Records that leave the buffer because an older record of their block was flushed. */
  function Dropped(writes: seq<Block>, n: nat): (s: set<Block>)
    requires n <= |writes|
    ensures forall x :: x in s <==> x in writes[n..] && x.block in NumberSet(writes[..n])
  {
    set i | n <= i < |writes| && writes[i].block in NumberSet(writes[..n]) :: writes[i]
  }

  function AfterFlush(v: View, n: nat): View
    requires n <= |v.writes|
  {
    v.(entries := FlushedAll(v.entries, v.writes[..n]),
       wal := v.wal + v.writes[..n],
       writes := Remaining(v.writes, NumberSet(v.writes[..n])),
       stranded := v.stranded + Dropped(v.writes, n),
       dropped := v.dropped + Dropped(v.writes, n))
  }

  lemma FlushedAllNext(entries: map<nat, Entry>, writes: seq<Block>, i: nat)
    ensures FlushedAll(entries, writes[..0]) == entries
    ensures i < |writes| ==>
              FlushedAll(entries, writes[..i + 1])
              == Flushed(FlushedAll(entries, writes[..i]), writes[i].block)
  {
    if i < |writes| {
      assert writes[..i + 1][..i] == writes[..i];
    }
  }

  /** A complete flush empties the buffer and strands nothing. */
  lemma FlushWhole(v: View)
    ensures AfterFlush(v, |v.writes|).writes == [] && AfterFlush(v, |v.writes|).stranded == v.stranded
  {
    var w := AfterFlush(v, |v.writes|);
    if |w.writes| > 0 {
      assert w.writes[0] in w.writes;
      var k := RemainingIndex(v.writes, |v.writes|, w.writes[0]);
      assert false;
    }
    assert Dropped(v.writes, |v.writes|) == {};
  }

  lemma {:induction false} FlushedAllAt(entries: map<nat, Entry>, blocks: seq<Block>, b: nat)
    ensures b in FlushedAll(entries, blocks) <==> b in entries
    ensures b in entries ==>
              FlushedAll(entries, blocks)[b] ==
              if b in NumberSet(blocks) && entries[b].state.Hot? then entries[b].(state := Pending) else entries[b]
  {
    if |blocks| != 0 {
      var n := |blocks| - 1;
      FlushedAllAt(entries, blocks[..n], b);
      assert b in NumberSet(blocks) <==> b in NumberSet(blocks[..n]) || b == blocks[n].block;
    }
  }

  lemma {:induction false} RemainingOrdered(blocks: seq<Block>, flushed: set<nat>)
    requires Ordered(blocks)
    ensures Ordered(Remaining(blocks, flushed))
  {
    if |blocks| != 0 {
      var n := |blocks| - 1;
      RemainingOrdered(blocks[..n], flushed);
      if blocks[n].block !in flushed {
        var r := Remaining(blocks[..n], flushed);
        forall i | 0 <= i < |r| ensures r[i].seqNum < blocks[n].seqNum {
          assert r[i] in r;
          assert r[i] in blocks[..n];
        }
        OrderedConcat(r, [blocks[n]]);
      }
    }
  }

  lemma FlushedNumbers(writes: seq<Block>, n: nat)
    requires n <= |writes|
    ensures forall i :: 0 <= i < n ==> writes[i].block in NumberSet(writes[..n])
  {
    forall i | 0 <= i < n ensures writes[i].block in NumberSet(writes[..n]) {
      assert writes[..n][i] == writes[i];
    }
  }

  lemma RemainingIndex(writes: seq<Block>, n: nat, x: Block) returns (k: nat)
    requires n <= |writes| && x in Remaining(writes, NumberSet(writes[..n]))
    ensures n <= k < |writes| && writes[k] == x
  {
    FlushedNumbers(writes, n);
    k :| 0 <= k < |writes| && writes[k] == x;
  }

  lemma RemainingAfter(writes: seq<Block>, n: nat)
    requires n <= |writes| && Ordered(writes)
    ensures AllBelow(writes[..n], Remaining(writes, NumberSet(writes[..n])))
  {
    var r := Remaining(writes, NumberSet(writes[..n]));
    forall i, j | 0 <= i < n && 0 <= j < |r| ensures writes[i].seqNum < r[j].seqNum {
      var k := RemainingIndex(writes, n, r[j]);
    }
  }

  lemma RemainingAbove(wal: seq<Block>, writes: seq<Block>, flushed: set<nat>)
    requires AllBelow(wal, writes)
    ensures AllBelow(wal, Remaining(writes, flushed))
  {
    var r := Remaining(writes, flushed);
    forall i, j | 0 <= i < |wal| && 0 <= j < |r| ensures wal[i].seqNum < r[j].seqNum {
      assert r[j] in r;
      var k :| 0 <= k < |writes| && writes[k] == r[j];
    }
  }

  lemma BelowConcat(a: seq<Block>, c: seq<Block>, r: seq<Block>)
    requires AllBelow(a, r) && AllBelow(c, r)
    ensures AllBelow(a + c, r)
  {
  }

  lemma FlushOrdered(wal: seq<Block>, writes: seq<Block>, n: nat, r: seq<Block>)
    requires n <= |writes| && Ordered(wal + writes) && r == Remaining(writes, NumberSet(writes[..n]))
    ensures Ordered(wal + writes[..n] + r)
  {
    hide Ordered, AllBelow, Remaining, NumberSet;
    OrderedConcat(wal, writes);
    assert writes == writes[..n] + writes[n..];
    OrderedConcat(writes[..n], writes[n..]);
    assert wal + writes == wal + writes[..n] + writes[n..];
    OrderedConcat(wal + writes[..n], writes[n..]);
    RemainingOrdered(writes, NumberSet(writes[..n]));
    RemainingAfter(writes, n);
    RemainingAbove(wal, writes, NumberSet(writes[..n]));
    BelowConcat(wal, writes[..n], r);
    OrderedConcat(wal + writes[..n], r);
  }

  lemma FlushMembers(v: View, n: nat, x: Block)
    requires n <= |v.writes| && x in AfterFlush(v, n).Log()
    ensures x in v.Log()
  {
    assert x in v.wal || x in v.writes;
  }

  lemma FlushLogOk(v: View, n: nat)
    requires n <= |v.writes| && LogOk(v.Log(), v.latest, v.seqNum)
    ensures LogOk(AfterFlush(v, n).Log(), v.latest, v.seqNum)
    ensures forall x :: x in AfterFlush(v, n).Log() ==> x in v.Log()
  {
    FlushOrdered(v.wal, v.writes, n, AfterFlush(v, n).writes);
    forall x | x in AfterFlush(v, n).Log() ensures x in v.Log() {
      FlushMembers(v, n, x);
    }
    var log := AfterFlush(v, n).Log();
    forall i | 0 <= i < |log| ensures Genuine(v.latest, log[i]) && log[i].seqNum <= v.seqNum {
      assert log[i] in log;
    }
  }

  lemma FlushEntryOk(v: View, n: nat, b: nat)
    requires n <= |v.writes| && EntriesOk(v) && b in v.entries && v.latest[b].block == b
    requires b in FlushedAll(v.entries, v.writes[..n])
    ensures var e := FlushedAll(v.entries, v.writes[..n])[b];
            && e.seqNum == v.entries[b].seqNum && e.data == v.entries[b].data
            && (e.state.Hot? || e.state.Pending?)
            && (e.state.Hot? ==> v.latest[b] in Remaining(v.writes, NumberSet(v.writes[..n])))
            && (e.state.Pending? ==>
                  || v.latest[b] in v.wal + v.writes[..n]
                  || v.latest[b] in v.stranded + Dropped(v.writes, n))
  {
    FlushedAllAt(v.entries, v.writes[..n], b);
    if v.entries[b].state.Hot? {
      FlushHot(v, n, b);
    }
  }

  lemma EntryIsLatest(v: View, b: nat)
    requires b in v.entries && EntryOk(v, b)
    ensures b in v.latest
  {
  }

  lemma FlushedEntryOk(v: View, n: nat, b: nat)
    requires n <= |v.writes| && b in v.entries && EntryOk(v, b) && b in AfterFlush(v, n).entries
    requires var e := AfterFlush(v, n).entries[b];
             && e.seqNum == v.entries[b].seqNum && e.data == v.entries[b].data
             && (e.state.Hot? || e.state.Pending?)
             && (e.state.Hot? ==> v.latest[b] in AfterFlush(v, n).writes)
             && (e.state.Pending? ==> v.latest[b] in AfterFlush(v, n).wal || v.latest[b] in AfterFlush(v, n).stranded)
    ensures EntryOk(AfterFlush(v, n), b)
  {
    hide FlushedAll, Remaining, NumberSet, Dropped;
  }

  lemma FlushEntriesOk(g: Geometry, v: View, n: nat)
    requires n <= |v.writes| && EntriesOk(v) && LatestOk(g, v.latest, v.seqNum)
    ensures EntriesOk(AfterFlush(v, n))
    ensures AfterFlush(v, n).entries.Keys == v.entries.Keys
  {
    hide FlushedAll, Remaining, NumberSet, Dropped, EntryOk;
    var w := AfterFlush(v, n);
    forall b ensures b in w.entries <==> b in v.entries {
      FlushedAllAt(v.entries, v.writes[..n], b);
    }
    forall b | b in w.entries ensures EntryOk(w, b) {
      EntryIsLatest(v, b);
      FlushEntryOk(v, n, b);
      FlushedEntryOk(v, n, b);
    }
  }

  lemma FlushHot(v: View, n: nat, b: nat)
    requires n <= |v.writes| && b in v.latest && v.latest[b] in v.writes && v.latest[b].block == b
    ensures b in NumberSet(v.writes[..n]) ==> v.latest[b] in v.writes[..n] || v.latest[b] in Dropped(v.writes, n)
    ensures b !in NumberSet(v.writes[..n]) ==> v.latest[b] in Remaining(v.writes, NumberSet(v.writes[..n]))
  {
    var k :| 0 <= k < |v.writes| && v.writes[k] == v.latest[b];
    if k < n {
      assert v.writes[..n][k] == v.latest[b];
    } else {
      assert v.writes[n..][k - n] == v.latest[b];
    }
  }

  lemma FlushCoherent(g: Geometry, v: View, n: nat)
    requires Coherent(g, v) && n <= |v.writes|
    ensures Coherent(g, AfterFlush(v, n))
  {
    var w := AfterFlush(v, n);
    FlushLogOk(v, n);
    FlushEntriesOk(g, v, n);
    forall i | 0 <= i < |w.Log()|
      ensures Sized(g, w.Log()[i]) && forall b :: b in w.mapped ==> w.mapped[b].seqNum < w.Log()[i].seqNum
    {
      assert w.Log()[i] in w.Log();
    }
  }

  /**
   A flush keeps every record on its way to a chunk exactly when no record past
   the failure shares its block with one before it.
   */
  lemma FlushConserves(v: View, n: nat)
    requires n <= |v.writes|
    ensures (forall x :: x in v.Log() ==> x in AfterFlush(v, n).Log())
            <==> forall i :: n <= i < |v.writes| ==>
                v.writes[i] in v.wal || v.writes[i] in v.writes[..n] || v.writes[i].block !in NumberSet(v.writes[..n])
  {
    hide FlushedAll, Remaining, NumberSet, Dropped;
    var w := AfterFlush(v, n);
    var kept := forall i :: n <= i < |v.writes| ==>
        v.writes[i] in v.wal || v.writes[i] in v.writes[..n] || v.writes[i].block !in NumberSet(v.writes[..n]);
    if kept {
      forall x | x in v.Log() ensures x in w.Log() {
        assert v.writes == v.writes[..n] + v.writes[n..];
        if x !in v.wal && x !in v.writes[..n] {
          var i :| 0 <= i < |v.writes| - n && v.writes[n..][i] == x;
          assert v.writes[n + i] == x;
        }
      }
    }
    if forall x :: x in v.Log() ==> x in w.Log() {
      forall i | n <= i < |v.writes|
        ensures v.writes[i] in v.wal || v.writes[i] in v.writes[..n] || v.writes[i].block !in NumberSet(v.writes[..n])
      {
        assert v.writes[i] in v.Log();
      }
    }
  }

  // ----- Rotating the WAL: its winners are now on their way to chunks -----

  function SetOf(blocks: seq<Block>): (s: set<Block>)
    ensures forall x :: x in s <==> x in blocks
  {
    set i | 0 <= i < |blocks| :: blocks[i]
  }

  function AfterRotate(v: View, sorted: seq<Block>): View
  {
    v.(wal := [], stranded := v.stranded + SetOf(sorted), retained := v.retained + v.wal)
  }

  /** The newest write of a block, if it is in the segment, wins the consolidation. */
  lemma LatestWins(v: View, sorted: seq<Block>, b: nat)
    requires LogOk(v.Log(), v.latest, v.seqNum) && Consolidated(v.wal, sorted)
    requires b in v.latest && v.latest[b] in v.wal && v.latest[b].block == b
    ensures v.latest[b] in sorted
  {
    NewestSound(v.wal, b);
    var x := Newest(v.wal)[b];
    var k :| 0 <= k < |v.wal| && v.wal[k] == x;
    assert v.Log()[k] == x;
    assert Genuine(v.latest, x);
    var j :| 0 <= j < |sorted| && Numbers(sorted)[j] == b;
    assert sorted[j] == x;
  }

  lemma RotateLog(g: Geometry, v: View, sorted: seq<Block>)
    requires LogOk(v.Log(), v.latest, v.seqNum) && LogSized(g, v.Log()) && MapBelowLog(v.mapped, v.Log())
    ensures var w := AfterRotate(v, sorted);
            LogOk(w.Log(), w.latest, w.seqNum) && LogSized(g, w.Log()) && MapBelowLog(w.mapped, w.Log())
  {
    hide Ordered, AllBelow, Genuine, Sized;
    OrderedConcat(v.wal, v.writes);
    assert AfterRotate(v, sorted).Log() == v.writes;
    forall i | 0 <= i < |v.writes|
      ensures Genuine(v.latest, v.writes[i]) && v.writes[i].seqNum <= v.seqNum && Sized(g, v.writes[i])
      ensures forall b :: b in v.mapped ==> v.mapped[b].seqNum < v.writes[i].seqNum
    {
      assert v.Log()[|v.wal| + i] == v.writes[i];
    }
  }

  lemma RotateEntries(g: Geometry, v: View, sorted: seq<Block>)
    requires EntriesOk(v) && LatestOk(g, v.latest, v.seqNum) && LogOk(v.Log(), v.latest, v.seqNum)
    requires Consolidated(v.wal, sorted)
    ensures EntriesOk(AfterRotate(v, sorted))
  {
    hide LogOk, Consolidated;
    forall b | b in v.entries && v.entries[b].state.Pending? && v.latest[b] in v.wal
      ensures v.latest[b] in AfterRotate(v, sorted).stranded
    {
      LatestWins(v, sorted, b);
    }
  }

  lemma RotateCoherent(g: Geometry, v: View, sorted: seq<Block>)
    requires Coherent(g, v) && Consolidated(v.wal, sorted)
    ensures Coherent(g, AfterRotate(v, sorted))
  {
    hide LogOk, LogSized, MapBelowLog, EntriesOk, LatestOk, PackedReal, Consolidated;
    RotateLog(g, v, sorted);
    RotateEntries(g, v, sorted);
  }

  /** What consolidation hands to the uploader. */
  lemma SortedReal(g: Geometry, v: View, sorted: seq<Block>)
    requires Coherent(g, v) && Consolidated(v.wal, sorted)
    ensures forall i :: 0 <= i < |sorted| ==> Genuine(v.latest, sorted[i]) && sorted[i] in v.wal && Sized(g, sorted[i])
    ensures AllBelow(sorted, v.writes)
    ensures forall b, i :: b in v.mapped && 0 <= i < |sorted| ==> v.mapped[b].seqNum < sorted[i].seqNum
  {
    OrderedConcat(v.wal, v.writes);
    forall i | 0 <= i < |sorted|
      ensures Genuine(v.latest, sorted[i]) && sorted[i] in v.wal && Sized(g, sorted[i])
      ensures exists k :: 0 <= k < |v.wal| && v.wal[k] == sorted[i]
      ensures forall b :: b in v.mapped ==> v.mapped[b].seqNum < sorted[i].seqNum
    {
      NewestSound(v.wal, sorted[i].block);
      var k :| 0 <= k < |v.wal| && v.wal[k] == sorted[i];
      assert v.Log()[k] == sorted[i];
    }
  }

  /** With the log drained and nothing stranded, nothing is left in memory. */
  lemma DrainedMemoryEmpty(g: Geometry, v: View)
    requires Coherent(g, v) && v.writes == [] && v.wal == [] && v.stranded == {}
    ensures v.entries == map[]
  {
    if b :| b in v.entries {
      assert false;
    }
  }

  // ----- Uploading one chunk -----

  function AfterUpload(v: View, blocks: seq<Block>): View
  {
    v.(packed := v.packed[v.objectNum := blocks], present := v.present + {v.objectNum}, objectNum := v.objectNum + 1)
  }

  /** A failed upload still uses up its id. */
  lemma BurnCoherent(g: Geometry, v: View)
    requires Coherent(g, v)
    ensures Coherent(g, v.(objectNum := v.objectNum + 1))
  {
  }

  lemma UploadKeepsMap(g: Geometry, v: View, blocks: seq<Block>, m: map<nat, Loc>)
    requires MapReal(g, v, m)
    ensures MapReal(g, AfterUpload(v, blocks), m)
  {
    var w := AfterUpload(v, blocks);
    forall b | b in m ensures Holds(g, w.packed, m[b], b) {
      var p: nat :| HoldsAt(g, v.packed, m[b], b, p);
      assert HoldsAt(g, w.packed, m[b], b, p);
    }
  }

  lemma UploadCoherent(g: Geometry, v: View, blocks: seq<Block>)
    requires Coherent(g, v) && PackedOk(g, blocks)
    requires forall i :: 0 <= i < |blocks| ==> Genuine(v.latest, blocks[i])
    ensures Coherent(g, AfterUpload(v, blocks))
  {
    UploadKeepsMap(g, v, blocks, v.mapped);
    if v.saved.Some? {
      UploadKeepsMap(g, v, blocks, v.saved.value);
    }
    var w := AfterUpload(v, blocks);
    assert PackedReal(g, w.packed, w.latest);
    assert w.Log() == v.Log();
  }

  // ----- Publishing a run of an uploaded chunk -----

  function Gone(entries: map<nat, Entry>, cells: map<nat, Loc>): set<nat>
  {
    set b | b in cells && Matches(entries, b, cells[b].seqNum)
  }

  function Restrict(cells: map<nat, Loc>, s: set<nat>): map<nat, Loc>
  {
    map b | b in cells && b in s :: cells[b]
  }

  function AfterPublish(v: View, cells: map<nat, Loc>, drained: set<Block>): View
  {
    v.(mapped := v.mapped + cells,
       located := v.located + Restrict(cells, Gone(v.entries, cells)),
       entries := v.entries - Gone(v.entries, cells),
       stranded := v.stranded - drained)
  }

  /** The run is real, newer than what it replaces and older than what is still logged. */
  ghost predicate Publishable(g: Geometry, v: View, cells: map<nat, Loc>, drained: set<Block>)
  {
    && MapReal(g, v, cells)
    && (forall x :: x in drained ==> x.block in cells && cells[x.block].seqNum == x.seqNum)
    && (forall b :: b in cells && b in v.mapped ==> v.mapped[b].seqNum < cells[b].seqNum)
    && MapBelowLog(cells, v.Log())
  }

  lemma CellIsOld(g: Geometry, v: View, cells: map<nat, Loc>, b: nat)
    requires MapReal(g, v, cells) && PackedReal(g, v.packed, v.latest) && b in cells
    ensures b in v.latest && cells[b].seqNum <= v.latest[b].seqNum
  {
    var p: nat :| HoldsAt(g, v.packed, cells[b], b, p);
    assert Genuine(v.latest, v.packed[cells[b].chunk][p]);
  }

  lemma PublishEntriesOk(g: Geometry, v: View, cells: map<nat, Loc>, drained: set<Block>)
    requires Coherent(g, v) && Publishable(g, v, cells, drained)
    ensures EntriesOk(AfterPublish(v, cells, drained))
  {
    var w := AfterPublish(v, cells, drained);
    forall b | b in w.entries && v.latest[b] in drained
      ensures !w.entries[b].state.Pending?
    {
      assert v.latest[b].block == b;
      assert !Matches(v.entries, b, cells[b].seqNum);
    }
  }

  lemma PublishSettled(g: Geometry, v: View, cells: map<nat, Loc>, drained: set<Block>)
    requires Coherent(g, v) && Publishable(g, v, cells, drained)
    ensures Settled(AfterPublish(v, cells, drained))
  {
    hide LogOk, LogSized, MapBelowLog, LatestOk, PackedReal, MapReal;
    var w := AfterPublish(v, cells, drained);
    var gone := Gone(v.entries, cells);
    forall b | b in w.latest && b !in w.entries
      ensures b in w.mapped && b in w.located && w.located[b] == w.mapped[b] && w.mapped[b].seqNum == w.latest[b].seqNum
    {
      if b in gone {
        assert v.entries[b].seqNum == cells[b].seqNum;
      } else {
        assert b !in v.entries;
        if b in cells {
          CellIsOld(g, v, cells, b);
        }
      }
    }
  }

  lemma PublishMaps(g: Geometry, v: View, w: View, cells: map<nat, Loc>)
    requires MapReal(g, v, v.mapped) && MapReal(g, v, cells) && (v.saved.Some? ==> MapReal(g, v, v.saved.value))
    requires w.latest == v.latest && w.packed == v.packed && w.present == v.present && w.objectNum == v.objectNum
    requires w.saved == v.saved
    ensures MapReal(g, w, v.mapped + cells)
    ensures w.saved.Some? ==> MapReal(g, w, w.saved.value)
  {
  }

  lemma PublishBelowLog(m: map<nat, Loc>, cells: map<nat, Loc>, log: seq<Block>)
    requires MapBelowLog(m, log) && MapBelowLog(cells, log)
    ensures MapBelowLog(m + cells, log)
  {
  }

  lemma PublishCoherent(g: Geometry, v: View, cells: map<nat, Loc>, drained: set<Block>)
    requires Coherent(g, v) && Publishable(g, v, cells, drained)
    ensures Coherent(g, AfterPublish(v, cells, drained))
  {
    var w := AfterPublish(v, cells, drained);
    PublishEntriesOk(g, v, cells, drained);
    PublishSettled(g, v, cells, drained);
    PublishMaps(g, v, w, cells);
    PublishBelowLog(v.mapped, cells, v.Log());
  }

  // ----- Checkpoint, sweep, reload -----

  /** Every location a coherent map mentions fits the checkpoint's record fields. */
  lemma MapEncodable(g: Geometry, v: View, b: nat)
    requires g.Ok() && Coherent(g, v) && b in v.mapped
    ensures b < g.numBlocks && v.mapped[b].chunk < v.objectNum && v.mapped[b].seqNum <= v.seqNum
    ensures v.mapped[b].offset < Capacity(4)
  {
    MappedIsOld(g, v, b);
    assert v.latest[b].block == b && Sized(g, v.latest[b]);
    var p: nat :| HoldsAt(g, v.packed, v.mapped[b], b, p);
    assert PackedOk(g, v.packed[v.mapped[b].chunk]);
    TimesMono(p + 1, g.ChunkBlocks(), g.Stride());
  }

  /** The live checkpoint covers all segments if nothing of them is left to upload. */
  function AfterSave(v: View): View
  {
    v.(saved := Some(v.mapped), settled := if v.stranded == {} then Some(|v.retained|) else None)
  }

  lemma SaveCoherent(g: Geometry, v: View)
    requires Coherent(g, v)
    ensures Coherent(g, AfterSave(v))
  {
  }

  /** What the live checkpoint leads to, which is where a new process starts. */
  ghost function SavedMap(v: View): map<nat, Loc>
  {
    if v.saved.Some? then v.saved.value else map[]
  }

  /** The live checkpoint is what a reload would find the map to be. */
  ghost predicate Current(v: View)
  {
    v.saved == Some(v.mapped) || (v.saved.None? && v.mapped == map[])
  }

  /** Deleting chunks that neither the map nor the checkpoint points into changes nothing. */
  lemma SweepCoherent(g: Geometry, v: View, ids: set<nat>)
    requires Coherent(g, v) && Current(v)
    requires forall b :: b in v.mapped ==> v.mapped[b].chunk !in ids
    ensures Coherent(g, v.(present := v.present - ids))
  {
    var w := v.(present := v.present - ids);
    assert w.Log() == v.Log();
    assert MapReal(g, w, w.mapped);
  }

  /** Consecutive blocks linked in a map sit at consecutive positions of their chunk. */
  lemma {:induction false} ChainPositions(g: Geometry, v: View, m: map<nat, Loc>, b: nat, n: nat, p: nat, i: nat)
    requires MapReal(g, v, m) && LayoutOk(g, v.packed) && b in m && HoldsAt(g, v.packed, m[b], b, p)
    requires Chain(m, g.Stride(), b, n) && i <= n
    ensures b + i in m && m[b + i].chunk == m[b].chunk
    ensures HoldsAt(g, v.packed, m[b + i], b + i, p + i)
  {
    if i != 0 {
      ChainPositions(g, v, m, b, n, p, i - 1);
      assert Linked(m, g.Stride(), b + (i - 1));
      hide Chain, LayoutOk;
      var q: nat :| HoldsAt(g, v.packed, m[b + i], b + i, q);
      NeighboursAdjacent(g, v.packed, m[b + (i - 1)], m[b + i], b + (i - 1), p + (i - 1), q);
    }
  }

  /** No chunk is long enough for a run to overflow its 16-bit length on reload. */
  lemma RealRunsFit(g: Geometry, v: View, m: map<nat, Loc>)
    requires g.Ok() && MapReal(g, v, m) && LayoutOk(g, v.packed)
    ensures RunsFit(m, g.Stride())
  {
    forall b: nat ensures !Chain(m, g.Stride(), b, MAX_RUN) {
      if Chain(m, g.Stride(), b, MAX_RUN) {
        assert Linked(m, g.Stride(), b);
        var p: nat :| HoldsAt(g, v.packed, m[b], b, p);
        ChainPositions(g, v, m, b, MAX_RUN, p, MAX_RUN);
        assert false;
      }
    }
  }

  /** In every reachable state the map and the live checkpoint survive a reload. */
  lemma CoherentRunsFit(g: Geometry, v: View)
    requires g.Ok() && Coherent(g, v)
    ensures RunsFit(v.mapped, g.Stride()) && RunsFit(SavedMap(v), g.Stride())
  {
    RealRunsFit(g, v, v.mapped);
    RealRunsFit(g, v, SavedMap(v));
  }

  /** With nothing in memory, both indexes say the same. */
  lemma LocatedIsMapped(g: Geometry, v: View)
    requires Coherent(g, v) && v.entries == map[]
    ensures v.located == v.mapped
  {
    forall b: nat ensures Get(v.located, b) == Get(v.mapped, b) {
    }
    SameMap(v.located, v.mapped);
  }

  function AfterReload(v: View, seqNum: nat, objectNum: nat): View
  {
    v.(entries := map[], located := v.mapped, writes := [], wal := [], stranded := {}, dropped := {}, retained := [],
       settled := Some(0), seqNum := seqNum, objectNum := objectNum)
  }

  lemma ReloadCoherent(g: Geometry, v: View, seqNum: nat, objectNum: nat)
    requires Coherent(g, v) && v.entries == map[] && Current(v)
    requires forall b :: b in v.mapped ==> v.mapped[b].chunk < objectNum && v.mapped[b].seqNum <= seqNum
    ensures Coherent(g, AfterReload(v, seqNum, objectNum))
  {
    hide PackedReal;
    LocatedIsMapped(g, v);
    var w := AfterReload(v, seqNum, objectNum);
    assert w.Log() == [];
    forall b | b in w.latest ensures w.latest[b].seqNum <= seqNum {
      assert b in v.mapped;
    }
  }

  // ----- What a reader sees -----

  /** A resolved block: its newest bytes are in memory or at a location that holds them. */
  lemma ResolvesToLatest(g: Geometry, v: View, b: nat)
    requires Coherent(g, v)
    ensures Resolve(v.entries, v.located, b).Missing? <==> b !in v.latest
    ensures Resolve(v.entries, v.located, b).InMemory? ==>
              Resolve(v.entries, v.located, b).entry.data == v.latest[b].data
    ensures Resolve(v.entries, v.located, b).Uploaded? ==>
      var loc := Resolve(v.entries, v.located, b).loc;
      && loc.chunk in v.present
      && exists p: nat :: HoldsAt(g, v.packed, loc, b, p) && v.packed[loc.chunk][p] == v.latest[b]
  {
    if b in v.latest && b !in v.entries {
      var loc := v.located[b];
      var p: nat :| HoldsAt(g, v.packed, loc, b, p);
      assert Genuine(v.latest, v.packed[loc.chunk][p]);
    }
  }
}
