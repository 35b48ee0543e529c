/**
 Where the records of a volume come from: each is the write its SeqNum was given
 to, and none sits in a chunk without being logged or superseded. This is what a
 new process can rely on about chunks it has not written itself.
 */
module Provenance {
  import opened Extents
  import opened Blocks
  import opened Chunks
  import opened VolumeState
  import opened Durability

  /** The record is the write its SeqNum was given to. */
  ghost predicate Known(wrote: map<nat, Block>, x: Block)
  {
    x.seqNum in wrote && wrote[x.seqNum] == x
  }

  /** The map has this record or a newer one of its block. */
  ghost predicate CaughtUp(d: map<nat, Loc>, x: Block)
  {
    x.block in d && x.seqNum <= d[x.block].seqNum
  }

  ghost predicate WroteOk(g: Geometry, wrote: map<nat, Block>, latest: map<nat, Block>)
  {
    forall n :: n in wrote ==> 0 < n && wrote[n].seqNum == n && Sized(g, wrote[n]) && Genuine(latest, wrote[n])
  }

  ghost predicate LogKnown(wrote: map<nat, Block>, log: seq<Block>)
  {
    forall i :: 0 <= i < |log| ==> Known(wrote, log[i])
  }

  ghost predicate PackedKnown(wrote: map<nat, Block>, packed: Layout)
  {
    forall o, i :: o in packed && 0 <= i < |packed[o]| ==> Known(wrote, packed[o][i])
  }

  /** The record is in a log file, or both checkpoint and map have one as new. */
  ghost predicate Backed(v: View, x: Block)
  {
    x in v.retained || (CaughtUp(SavedMap(v), x) && CaughtUp(v.mapped, x))
  }

  ghost predicate PackedBacked(v: View)
  {
    forall o, i :: o in v.packed && 0 <= i < |v.packed[o]| ==> Backed(v, v.packed[o][i])
  }

  ghost predicate Recorded(g: Geometry, v: View)
  {
    && WroteOk(g, v.wrote, v.latest) && LogKnown(v.wrote, v.History()) && PackedKnown(v.wrote, v.packed)
    && PackedBacked(v)
  }

  lemma InitiallyRecorded(g: Geometry, v: View)
    requires v.wrote == map[] && v.History() == [] && v.packed == map[]
    ensures Recorded(g, v)
  {
  }

  // ----- Every step keeps it -----

  lemma WriteRecorded(g: Geometry, v: View, x: Block)
    requires Coherent(g, v) && Recorded(g, v) && Sized(g, x) && x.seqNum == v.seqNum + 1
    ensures Recorded(g, AfterWrite(v, x))
  {
    hide LogOk, LogSized, PackedReal, EntriesOk, Settled, MapReal, MapBelowLog, Sized, CaughtUp;
    var w := AfterWrite(v, x);
    assert x.seqNum !in v.wrote;
    assert w.History() == v.History() + [x];
    forall n | n in v.wrote ensures Genuine(w.latest, v.wrote[n]) {
      GenuineAfterWrite(v.latest, x, v.wrote[n]);
    }
    assert PackedBacked(w) by {
      assert forall y :: Backed(v, y) ==> Backed(w, y);
    }
  }

  lemma FlushRecorded(g: Geometry, v: View, n: nat)
    requires Recorded(g, v) && n <= |v.writes|
    ensures Recorded(g, AfterFlush(v, n))
  {
    hide Known, CaughtUp, WroteOk, PackedKnown;
    var w := AfterFlush(v, n);
    FlushMembersFrom(v, n, 0);
    assert w.History()[0..] == w.History() && v.History()[0..] == v.History();
    forall i | 0 <= i < |w.History()| ensures Known(w.wrote, w.History()[i]) {
      assert w.History()[i] in v.History();
    }
    assert forall y :: Backed(v, y) ==> Backed(w, y);
  }

  lemma RotateRecorded(g: Geometry, v: View, sorted: seq<Block>)
    requires Recorded(g, v)
    ensures Recorded(g, AfterRotate(v, sorted))
  {
    hide Known, CaughtUp, WroteOk, PackedKnown;
    var w := AfterRotate(v, sorted);
    assert w.History() == v.History();
    assert forall y :: Backed(v, y) ==> Backed(w, y);
  }

  lemma UploadRecorded(g: Geometry, v: View, blocks: seq<Block>)
    requires Recorded(g, v) && forall i :: 0 <= i < |blocks| ==> blocks[i] in v.retained
    ensures Recorded(g, AfterUpload(v, blocks))
  {
    hide CaughtUp, WroteOk, Known;
    var w := AfterUpload(v, blocks);
    assert w.History() == v.History();
    forall i | 0 <= i < |blocks| ensures Known(v.wrote, blocks[i]) {
      var k :| 0 <= k < |v.retained| && v.retained[k] == blocks[i];
      assert v.History()[k] == blocks[i];
    }
    assert forall y :: Backed(v, y) ==> Backed(w, y);
  }

  lemma PublishRecorded(g: Geometry, v: View, cells: map<nat, Loc>, drained: set<Block>)
    requires Recorded(g, v) && Publishable(g, v, cells, drained)
    ensures Recorded(g, AfterPublish(v, cells, drained))
  {
    hide Known, WroteOk, PackedKnown, MapReal, MapBelowLog;
    var w := AfterPublish(v, cells, drained);
    assert w.History() == v.History();
    forall y | Backed(v, y) ensures Backed(w, y) {
    }
  }

  lemma SaveRecorded(g: Geometry, v: View)
    requires Recorded(g, v)
    ensures Recorded(g, AfterSave(v))
  {
    hide Known, WroteOk, PackedKnown, CaughtUp;
    var w := AfterSave(v);
    assert w.History() == v.History();
    assert forall y :: Backed(v, y) ==> Backed(w, y);
  }

  lemma SameLogRecorded(g: Geometry, v: View, w: View)
    requires Recorded(g, v) && SameLog(v, w) && w.packed == v.packed && w.wrote == v.wrote
    ensures Recorded(g, w)
  {
    hide Known, WroteOk, PackedKnown, CaughtUp;
    assert w.History() == v.History();
    assert forall y :: Backed(v, y) ==> Backed(w, y);
  }

  /** Once nothing is left in memory, the checkpoint has all that any chunk holds. */
  lemma ReloadRecorded(g: Geometry, v: View, seqNum: nat, objectNum: nat)
    requires Coherent(g, v) && Recorded(g, v) && v.entries == map[] && Current(v)
    ensures Recorded(g, AfterReload(v, seqNum, objectNum))
  {
    hide Known, WroteOk, PackedKnown, LogOk, LogSized, MapReal, MapBelowLog;
    var w := AfterReload(v, seqNum, objectNum);
    assert w.History() == [];
    forall o, i | o in w.packed && 0 <= i < |w.packed[o]| ensures Backed(w, w.packed[o][i]) {
      assert Genuine(v.latest, v.packed[o][i]);
    }
  }
}
