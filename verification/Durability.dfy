/**
 What a crash leaves behind: the live checkpoint, the rotated segments that are
 still on disk, and the open one. The invariant says how these three fit together.
 */
module Durability {
  import opened Bytes
  import opened Extents
  import opened Blocks
  import opened Chunks
  import opened VolumeState

  /** The map has this record. */
  ghost predicate Drained(d: map<nat, Loc>, x: Block)
  {
    x.block in d && d[x.block].seqNum == x.seqNum
  }

  ghost predicate AllDrained(d: map<nat, Loc>, winners: map<nat, Block>)
  {
    forall b :: b in winners ==> Drained(d, winners[b])
  }

  ghost predicate Logged(log: seq<Block>, b: nat, seqNum: nat)
  {
    exists i :: 0 <= i < |log| && log[i].block == b && log[i].seqNum == seqNum
  }

  ghost predicate Older(seqNum: nat, log: seq<Block>)
  {
    forall i :: 0 <= i < |log| ==> seqNum < log[i].seqNum
  }

  ghost predicate MapOlder(d: map<nat, Loc>, log: seq<Block>)
  {
    forall b :: b in d ==> Older(d[b].seqNum, log)
  }

  /** What a map refers to was drained by this process, or is older than all it has logged. */
  ghost predicate Origin(v: View, m: map<nat, Loc>)
  {
    forall b :: b in m ==> Logged(v.retained, b, m[b].seqNum) || Older(m[b].seqNum, v.History())
  }

  ghost predicate HistoryOk(v: View)
  {
    && Ordered(v.History())
    && (forall i :: 0 <= i < |v.retained| ==> Genuine(v.latest, v.retained[i]))
    && (forall x :: x in v.stranded ==> x in v.retained || x in v.dropped)
  }

  /** A block's newest write is in a log file, in the buffer, in the live checkpoint, or dropped by a failed flush. */
  ghost predicate Kept(v: View)
  {
    forall b :: b in v.latest ==>
      || v.latest[b] in v.History() || v.latest[b] in v.dropped
      || Drained(SavedMap(v), v.latest[b])
  }

  /** The newest retained record of a block is published, or stranded. */
  ghost predicate Published(v: View)
  {
    forall b :: b in Newest(v.retained) ==>
        Newest(v.retained)[b] in v.stranded || Drained(v.mapped, Newest(v.retained)[b])
  }

  /** The checkpoint has everything of the first n retained records and is older than all that follows. */
  ghost predicate SettledAt(v: View, n: nat)
  {
    && n <= |v.retained| && AllDrained(SavedMap(v), Newest(v.retained[..n]))
    && MapOlder(SavedMap(v), v.History()[n..])
  }

  ghost predicate Durable(v: View)
  {
    && HistoryOk(v) && Origin(v, v.mapped) && Origin(v, SavedMap(v)) && Kept(v) && Published(v)
    && (v.settled.Some? ==> SettledAt(v, v.settled.value))
  }

  lemma InitiallyDurable(v: View)
    requires v.mapped == map[] && v.saved.None? && v.retained == [] && v.Log() == [] && v.latest == map[]
    requires v.stranded == {}
    requires v.settled == Some(0)
    ensures Durable(v)
  {
  }

  // ----- A block write -----

  lemma HistoryIsOld(g: Geometry, v: View)
    requires Coherent(g, v) && HistoryOk(v)
    ensures forall i :: 0 <= i < |v.History()| ==>
              Genuine(v.latest, v.History()[i]) && v.History()[i].seqNum <= v.seqNum
  {
    forall i | 0 <= i < |v.History()| ensures Genuine(v.latest, v.History()[i]) && v.History()[i].seqNum <= v.seqNum {
      if i >= |v.retained| {
        assert v.History()[i] == v.Log()[i - |v.retained|];
      }
    }
  }

  lemma RealIsOld(g: Geometry, v: View, m: map<nat, Loc>, b: nat)
    requires MapReal(g, v, m) && PackedReal(g, v.packed, v.latest) && LatestOk(g, v.latest, v.seqNum) && b in m
    ensures m[b].seqNum <= v.latest[b].seqNum <= v.seqNum
    ensures Drained(m, v.latest[b]) ==>
              exists p: nat :: HoldsAt(g, v.packed, m[b], b, p) && v.packed[m[b].chunk][p] == v.latest[b]
  {
    var p: nat :| HoldsAt(g, v.packed, m[b], b, p);
    assert Genuine(v.latest, v.packed[m[b].chunk][p]);
  }

  lemma OlderGrows(seqNum: nat, log: seq<Block>, x: Block)
    requires Older(seqNum, log) && seqNum < x.seqNum
    ensures Older(seqNum, log + [x])
  {
  }

  lemma WriteOrigin(g: Geometry, v: View, x: Block, m: map<nat, Loc>)
    requires Coherent(g, v) && Origin(v, m) && MapReal(g, v, m) && x.seqNum == v.seqNum + 1
    ensures Origin(AfterWrite(v, x), m)
  {
    hide Logged, Older, MapReal, PackedReal, LatestOk;
    var w := AfterWrite(v, x);
    assert w.History() == v.History() + [x];
    forall b | b in m && Older(m[b].seqNum, v.History()) ensures Older(m[b].seqNum, w.History()) {
      RealIsOld(g, v, m, b);
      OlderGrows(m[b].seqNum, v.History(), x);
    }
  }

  lemma WriteCovers(g: Geometry, v: View, x: Block, n: nat)
    requires Coherent(g, v) && SettledAt(v, n) && x.seqNum == v.seqNum + 1
    ensures SettledAt(AfterWrite(v, x), n)
  {
    hide Older, MapReal, PackedReal, LatestOk, AllDrained;
    var w := AfterWrite(v, x);
    assert w.History()[n..] == v.History()[n..] + [x];
    forall b | b in SavedMap(v) ensures Older(SavedMap(v)[b].seqNum, w.History()[n..]) {
      RealIsOld(g, v, SavedMap(v), b);
      OlderGrows(SavedMap(v)[b].seqNum, v.History()[n..], x);
    }
  }

  lemma WriteHistory(g: Geometry, v: View, x: Block)
    requires Coherent(g, v) && HistoryOk(v) && x.seqNum == v.seqNum + 1
    ensures HistoryOk(AfterWrite(v, x))
  {
    var w := AfterWrite(v, x);
    HistoryIsOld(g, v);
    assert w.History() == v.History() + [x];
    OrderedConcat(v.History(), [x]);
    forall i | 0 <= i < |v.retained| ensures Genuine(w.latest, v.retained[i]) {
      GenuineAfterWrite(v.latest, x, v.retained[i]);
    }
  }

  lemma WriteKept(v: View, x: Block)
    requires Kept(v)
    ensures Kept(AfterWrite(v, x))
  {
    var w := AfterWrite(v, x);
    assert w.History() == v.History() + [x];
  }

  lemma WriteDurable(g: Geometry, v: View, x: Block)
    requires Coherent(g, v) && Durable(v) && x.seqNum == v.seqNum + 1
    ensures Durable(AfterWrite(v, x))
  {
    hide HistoryOk, Origin, Kept, SettledAt;
    WriteHistory(g, v, x);
    WriteOrigin(g, v, x, v.mapped);
    WriteOrigin(g, v, x, SavedMap(v));
    WriteKept(v, x);
    if v.settled.Some? {
      WriteCovers(g, v, x, v.settled.value);
    }
  }

  // ----- Flushing -----

  lemma FlushHistory(v: View, n: nat)
    requires HistoryOk(v) && n <= |v.writes|
    ensures HistoryOk(AfterFlush(v, n))
  {
    hide Ordered, Remaining, NumberSet, FlushedAll, Genuine, Dropped;
    var w := AfterFlush(v, n);
    assert v.History() == (v.retained + v.wal) + v.writes;
    FlushOrdered(v.retained + v.wal, v.writes, n, w.writes);
    assert w.History() == (v.retained + v.wal) + v.writes[..n] + w.writes;
  }

  lemma OlderSubset(seqNum: nat, log: seq<Block>, sub: seq<Block>)
    requires Older(seqNum, log) && forall x :: x in sub ==> x in log
    ensures Older(seqNum, sub)
  {
    forall i | 0 <= i < |sub| ensures seqNum < sub[i].seqNum {
      assert sub[i] in sub;
      var j :| 0 <= j < |log| && log[j] == sub[i];
    }
  }

  lemma FlushMembersFrom(v: View, n: nat, k: nat)
    requires n <= |v.writes| && k <= |v.retained|
    ensures forall x :: x in AfterFlush(v, n).History()[k..] ==> x in v.History()[k..]
  {
    var w := AfterFlush(v, n);
    assert w.History()[k..] == v.retained[k..] + w.Log() && v.History()[k..] == v.retained[k..] + v.Log();
    forall x | x in w.Log() ensures x in v.Log() {
      FlushMembers(v, n, x);
    }
  }

  lemma FlushOrigin(v: View, n: nat, m: map<nat, Loc>)
    requires n <= |v.writes| && Origin(v, m)
    ensures Origin(AfterFlush(v, n), m)
  {
    hide Logged, Older;
    var w := AfterFlush(v, n);
    FlushMembersFrom(v, n, 0);
    assert w.History()[0..] == w.History() && v.History()[0..] == v.History();
    forall b | b in m && Older(m[b].seqNum, v.History()) ensures Older(m[b].seqNum, w.History()) {
      OlderSubset(m[b].seqNum, v.History(), w.History());
    }
  }

  lemma FlushCovers(v: View, n: nat, k: nat)
    requires n <= |v.writes| && SettledAt(v, k)
    ensures SettledAt(AfterFlush(v, n), k)
  {
    hide Older, AllDrained;
    var w := AfterFlush(v, n);
    FlushMembersFrom(v, n, k);
    forall b | b in SavedMap(v) ensures Older(SavedMap(v)[b].seqNum, w.History()[k..]) {
      OlderSubset(SavedMap(v)[b].seqNum, v.History()[k..], w.History()[k..]);
    }
  }

  lemma FlushKept(v: View, n: nat)
    requires n <= |v.writes| && Kept(v)
    ensures Kept(AfterFlush(v, n))
  {
    var w := AfterFlush(v, n);
    forall x | x in v.History() ensures x in w.History() || x in w.dropped {
      assert v.writes == v.writes[..n] + v.writes[n..];
      if x !in v.retained && x !in v.wal && x !in v.writes[..n] {
        assert x in v.writes[n..];
        assert x.block in NumberSet(v.writes[..n]) ==> x in Dropped(v.writes, n);
        assert x.block !in NumberSet(v.writes[..n]) ==> x in w.writes;
      }
    }
  }

  lemma FlushDurable(v: View, n: nat)
    requires Durable(v) && n <= |v.writes|
    ensures Durable(AfterFlush(v, n))
  {
    hide HistoryOk, Origin, Kept, SettledAt;
    FlushHistory(v, n);
    FlushOrigin(v, n, v.mapped);
    FlushOrigin(v, n, SavedMap(v));
    FlushKept(v, n);
    if v.settled.Some? {
      FlushCovers(v, n, v.settled.value);
    }
  }

  // ----- Rotating a segment -----

  lemma {:induction false} NewestConcat(a: seq<Block>, c: seq<Block>, b: nat)
    requires AllBelow(a, c)
    ensures b in Newest(a + c) <==> b in Newest(a) || b in Newest(c)
    ensures b in Newest(c) ==> Newest(a + c)[b] == Newest(c)[b]
    ensures b in Newest(a) && b !in Newest(c) ==> Newest(a + c)[b] == Newest(a)[b]
  {
    if |c| == 0 {
      assert a + c == a;
    } else {
      var n := |c| - 1;
      assert (a + c)[..|a| + n] == a + c[..n];
      NewestConcat(a, c[..n], b);
      NewestSound(a, b);
    }
  }

  lemma RotatePublished(v: View, sorted: seq<Block>)
    requires HistoryOk(v) && Published(v) && Consolidated(v.wal, sorted)
    ensures Published(AfterRotate(v, sorted))
  {
    hide Drained;
    var w := AfterRotate(v, sorted);
    OrderedConcat(v.retained + v.wal, v.writes);
    assert v.History() == v.retained + v.wal + v.writes;
    OrderedConcat(v.retained, v.wal);
    forall b | b in Newest(w.retained)
      ensures Newest(w.retained)[b] in w.stranded || Drained(w.mapped, Newest(w.retained)[b])
    {
      NewestConcat(v.retained, v.wal, b);
      if b in Newest(v.wal) {
        var i :| 0 <= i < |sorted| && Numbers(sorted)[i] == b;
        assert sorted[i] in SetOf(sorted);
      }
    }
  }

  lemma RotateOrigin(v: View, sorted: seq<Block>, m: map<nat, Loc>)
    requires Origin(v, m)
    ensures Origin(AfterRotate(v, sorted), m)
  {
    var w := AfterRotate(v, sorted);
    assert w.History() == v.History();
    forall b | b in m && Logged(v.retained, b, m[b].seqNum) ensures Logged(w.retained, b, m[b].seqNum) {
      var i :| 0 <= i < |v.retained| && v.retained[i].block == b && v.retained[i].seqNum == m[b].seqNum;
      assert w.retained[i] == v.retained[i];
    }
  }

  lemma RotateHistory(g: Geometry, v: View, sorted: seq<Block>)
    requires Coherent(g, v) && HistoryOk(v) && Consolidated(v.wal, sorted)
    ensures HistoryOk(AfterRotate(v, sorted)) && AfterRotate(v, sorted).History() == v.History()
  {
    var w := AfterRotate(v, sorted);
    assert w.History() == v.History();
    HistoryIsOld(g, v);
    forall i | 0 <= i < |w.retained| ensures Genuine(w.latest, w.retained[i]) {
      assert w.retained[i] == v.History()[i];
    }
    forall x | x in SetOf(sorted) ensures x in w.retained {
      NewestSound(v.wal, x.block);
    }
  }

  lemma RotateCovers(v: View, sorted: seq<Block>, n: nat)
    requires SettledAt(v, n)
    ensures SettledAt(AfterRotate(v, sorted), n)
  {
    var w := AfterRotate(v, sorted);
    assert w.History() == v.History() && w.retained[..n] == v.retained[..n];
  }

  lemma RotateDurable(g: Geometry, v: View, sorted: seq<Block>)
    requires Coherent(g, v) && Durable(v) && Consolidated(v.wal, sorted)
    ensures Durable(AfterRotate(v, sorted))
  {
    hide HistoryOk, Origin, SettledAt, Published, Coherent, Consolidated;
    RotateHistory(g, v, sorted);
    RotateOrigin(v, sorted, v.mapped);
    RotateOrigin(v, sorted, SavedMap(v));
    RotatePublished(v, sorted);
    if v.settled.Some? {
      RotateCovers(v, sorted, v.settled.value);
    }
  }

  // ----- Publishing -----

  ghost predicate CellsLogged(v: View, cells: map<nat, Loc>)
  {
    forall b :: b in cells ==> Logged(v.retained, b, cells[b].seqNum)
  }

  lemma PublishPublished(g: Geometry, v: View, cells: map<nat, Loc>, drained: set<Block>)
    requires Published(v) && Publishable(g, v, cells, drained) && CellsLogged(v, cells)
    ensures Published(AfterPublish(v, cells, drained))
  {
    var w := AfterPublish(v, cells, drained);
    forall b | b in Newest(v.retained)
      ensures Newest(v.retained)[b] in w.stranded || Drained(w.mapped, Newest(v.retained)[b])
    {
      NewestSound(v.retained, b);
      assert b in cells ==> Logged(v.retained, b, cells[b].seqNum);
    }
  }

  lemma PublishOrigin(v: View, cells: map<nat, Loc>, drained: set<Block>)
    requires Origin(v, v.mapped) && CellsLogged(v, cells)
    ensures Origin(AfterPublish(v, cells, drained), v.mapped + cells)
  {
    hide Logged, Older;
    assert AfterPublish(v, cells, drained).History() == v.History();
  }

  lemma PublishDurable(g: Geometry, v: View, cells: map<nat, Loc>, drained: set<Block>)
    requires Durable(v) && Publishable(g, v, cells, drained) && CellsLogged(v, cells)
    ensures Durable(AfterPublish(v, cells, drained))
  {
    hide Published, Older, Logged, Publishable, Drained, Ordered;
    PublishPublished(g, v, cells, drained);
    PublishOrigin(v, cells, drained);
    assert AfterPublish(v, cells, drained).History() == v.History();
  }

  // ----- Steps that touch neither log nor map -----

  ghost predicate SameLog(v: View, w: View)
  {
    && w.mapped == v.mapped && w.saved == v.saved && w.retained == v.retained && w.wal == v.wal && w.writes == v.writes
    && w.latest == v.latest && w.stranded == v.stranded && w.dropped == v.dropped && w.settled == v.settled
  }

  lemma SameLogDurable(v: View, w: View)
    requires Durable(v) && SameLog(v, w)
    ensures Durable(w)
  {
    hide Older, Logged, Drained, Ordered;
    assert w.History() == v.History();
  }

  // ----- Saving the live checkpoint -----

  lemma SaveKept(g: Geometry, v: View)
    requires Coherent(g, v) && HistoryOk(v) && Origin(v, SavedMap(v)) && Kept(v)
    ensures Kept(AfterSave(v))
  {
    var w := AfterSave(v);
    assert w.History() == v.History();
    forall b | b in v.latest && Drained(SavedMap(v), v.latest[b]) && v.latest[b] !in v.History()
        && v.latest[b] !in v.dropped
      ensures Drained(v.mapped, v.latest[b])
    {
      SavedStaysMapped(g, v, b);
    }
  }

  lemma SavedStaysMapped(g: Geometry, v: View, b: nat)
    requires Coherent(g, v) && HistoryOk(v) && b in v.latest && v.latest[b] !in v.History() && v.latest[b] !in v.dropped
    ensures Drained(v.mapped, v.latest[b])
  {
    hide LogOk, LogSized, PackedReal, MapReal, MapBelowLog;
    assert v.latest[b].block == b;
    if b in v.entries {
      assert false;
    }
  }

  lemma SaveCovers(g: Geometry, v: View)
    requires Coherent(g, v) && HistoryOk(v) && Published(v) && v.stranded == {}
    ensures SettledAt(AfterSave(v), |v.retained|)
  {
    var w, n := AfterSave(v), |v.retained|;
    assert w.History()[n..] == v.Log() && w.retained[..n] == v.retained;
  }

  lemma SaveDurable(g: Geometry, v: View)
    requires Coherent(g, v) && Durable(v)
    ensures Durable(AfterSave(v))
  {
    hide Coherent, SettledAt, Older, Logged, Drained, Ordered, Kept;
    assert AfterSave(v).History() == v.History();
    SaveKept(g, v);
    if v.stranded == {} {
      SaveCovers(g, v);
    }
  }

  // ----- Reopening -----

  lemma ReloadDurable(g: Geometry, v: View, seqNum: nat, objectNum: nat)
    requires Coherent(g, v) && v.entries == map[] && Current(v)
    ensures Durable(AfterReload(v, seqNum, objectNum))
  {
    var w := AfterReload(v, seqNum, objectNum);
    assert w.History() == [] && SavedMap(w) == v.mapped;
    forall b | b in w.latest ensures Drained(SavedMap(w), w.latest[b]) {
      assert v.latest[b].block == b;
    }
  }
}
