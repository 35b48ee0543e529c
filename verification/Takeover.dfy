/**
 The state a new process takes over after a crash: the map its recovery ends with,
 over the chunks of the old process and its own.
 */
module Takeover {
  import opened Bytes
  import opened Extents
  import opened Sorting
  import opened Blocks
  import opened Chunks
  import opened VolumeState
  import opened Durability
  import opened Provenance
  import opened Replay
  import opened Recovery

  // ----- What the records say about the checkpoint -----

  /** The log a crash left: all rotated segments and a prefix of the open one. */
  ghost predicate Left(v: View, all: seq<Block>)
  {
    v.retained <= all <= v.retained + v.wal
  }

  lemma LeftIsPrefix(v: View, all: seq<Block>)
    requires Left(v, all)
    ensures all <= v.History()
  {
    assert v.History() == (v.retained + v.wal) + v.writes;
  }

  /** If a block's newest write is among the records, it is the winner. */
  lemma LatestWinsLeft(g: Geometry, v: View, all: seq<Block>, b: nat)
    requires Coherent(g, v) && HistoryOk(v) && Left(v, all) && b in v.latest
    ensures v.latest[b].block == b
    ensures b in Newest(all) ==> Newest(all)[b].seqNum <= v.latest[b].seqNum
    ensures v.latest[b] in all ==> b in Newest(all) && Newest(all)[b] == v.latest[b]
    ensures b in Newest(all) && Newest(all)[b].seqNum == v.latest[b].seqNum ==> Newest(all)[b] == v.latest[b]
  {
    HistoryIsOld(g, v);
    LeftIsPrefix(v, all);
    NewestSound(all, b);
    if b in Newest(all) {
      var k :| 0 <= k < |all| && all[k] == Newest(all)[b];
      assert v.History()[k] == all[k];
    }
  }

  lemma RestNewer(d: map<nat, Loc>, log: seq<Block>, rest: seq<Block>, b: nat)
    requires MapOlder(d, log) && rest <= log && b in Newest(rest)
    ensures NewerThanAll(d, Newest(rest)[b].seqNum)
  {
    NewestSound(rest, b);
    var k :| 0 <= k < |rest| && rest[k] == Newest(rest)[b];
    forall x | x in d ensures d[x].seqNum < log[k].seqNum {
      assert Older(d[x].seqNum, log);
    }
  }

  /** The records split where the checkpoint was saved. */
  lemma SplitLeft(v: View, all: seq<Block>, n: nat)
    requires Ordered(v.History()) && Left(v, all) && n <= |v.retained|
    ensures n <= |all| && all == v.retained[..n] + all[n..] && all[n..] <= v.History()[n..]
    ensures AllBelow(v.retained[..n], all[n..])
  {
    LeftIsPrefix(v, all);
    var first, rest := v.retained[..n], all[n..];
    forall i, j | 0 <= i < |first| && 0 <= j < |rest| ensures first[i].seqNum < rest[j].seqNum {
      assert v.History()[i] == first[i] && v.History()[n + j] == rest[j];
    }
  }

  /** A checkpoint saved with nothing stranded makes every record drained or newer than all of it, also in mid-drain. */
  lemma SettledInOrder(v: View, all: seq<Block>)
    requires HistoryOk(v) && Left(v, all) && v.settled.Some? && SettledAt(v, v.settled.value)
    ensures InOrder(SavedMap(v), Newest(all))
  {
    hide Drained, Left, Ordered, MapOlder, Newest, AllBelow, NewerThanAll;
    var n, d := v.settled.value, SavedMap(v);
    SplitLeft(v, all, n);
    var first, rest := v.retained[..n], all[n..];
    forall b | b in Newest(all) ensures Drained(d, Newest(all)[b]) || NewerThanAll(d, Newest(all)[b].seqNum) {
      NewestConcat(first, rest, b);
      if b in Newest(rest) {
        RestNewer(d, v.History()[n..], rest, b);
      }
    }
  }

  lemma SavedReaches(g: Geometry, v: View, b: nat)
    requires Coherent(g, v) && b in v.latest && Drained(SavedMap(v), v.latest[b])
    ensures v.latest[b].block == b && Reaches(g, v.packed, SavedMap(v), v.latest[b])
  {
    assert v.latest[b].block == b;
    RealIsOld(g, v, SavedMap(v), b);
  }

  /** Chunks added under fresh ids leave what the old map leads to in place. */
  lemma OldReaches(g: Geometry, packed: Layout, out: Layout, m: map<nat, Loc>, d: map<nat, Loc>, x: Block)
    requires Reaches(g, packed, m, x) && FreshIds(m, out) && Get(d, x.block) == Get(m, x.block)
    ensures Reaches(g, packed + out, d, x)
  {
    var p: nat :| HoldsAt(g, packed, m[x.block], x.block, p) && packed[m[x.block].chunk][p] == x;
    assert m[x.block].chunk !in out;
    assert HoldsAt(g, packed + out, d[x.block], x.block, p);
  }

  lemma NewReaches(g: Geometry, packed: Layout, out: Layout, d: map<nat, Loc>, x: Block)
    requires Reaches(g, out, d, x)
    ensures Reaches(g, packed + out, d, x)
  {
    var p: nat :| HoldsAt(g, out, d[x.block], x.block, p) && out[d[x.block].chunk][p] == x;
    assert HoldsAt(g, packed + out, d[x.block], x.block, p);
  }

  /** The newest write of a block is on disk: in a surviving record, or in the live checkpoint. */
  ghost predicate Survives(v: View, all: seq<Block>, b: nat)
    requires b in v.latest
  {
    v.latest[b] in all || Drained(SavedMap(v), v.latest[b])
  }

  lemma SurvivorReached(g: Geometry, v: View, all: seq<Block>, d: map<nat, Loc>, out: Layout, b: nat)
    requires Coherent(g, v) && HistoryOk(v) && Left(v, all) && b in v.latest && Survives(v, all, b)
    requires AllNewest(g, SavedMap(v), d, out, Newest(all)) && OthersStay(SavedMap(v), d, Newest(all))
    requires FreshIds(SavedMap(v), out)
    ensures Reaches(g, v.packed + out, d, v.latest[b])
  {
    hide Coherent, HistoryOk, Left, Reaches, FreshIds;
    var d0, x := SavedMap(v), v.latest[b];
    LatestWinsLeft(g, v, all, b);
    if b in d0 {
      SavedNotNewer(g, v, b);
    }
    if b in Newest(all) && Newest(all)[b] == x && Reaches(g, out, d, x) {
      NewReaches(g, v.packed, out, d, x);
    } else {
      assert b in Newest(all) ==> EndsNewest(g, d0, d, out, Newest(all)[b]) && Newest(all)[b].block == b;
      assert Drained(d0, x) && Get(d, b) == Get(d0, b);
      SavedReaches(g, v, b);
      OldReaches(g, v.packed, out, d0, d, x);
    }
  }

  lemma SavedNotNewer(g: Geometry, v: View, b: nat)
    requires Coherent(g, v) && b in SavedMap(v)
    ensures b in v.latest && SavedMap(v)[b].seqNum <= v.latest[b].seqNum
  {
    RealIsOld(g, v, SavedMap(v), b);
  }

  /** Only writes still in the buffer and writes a failed flush dropped are not on disk when the open file is whole. */
  lemma FlushedSurvives(v: View, b: nat)
    requires Durable(v) && b in v.latest && v.latest[b] !in v.writes && v.latest[b] !in v.dropped
    ensures Survives(v, v.retained + v.wal, b)
  {
  }

  // ----- The new state -----

  /** The write each location of the map stands for. */
  ghost function Restored(wrote: map<nat, Block>, d: map<nat, Loc>): map<nat, Block>
  {
    map b | b in d && d[b].seqNum in wrote :: wrote[d[b].seqNum]
  }

  /** The writes that are not newer than what was restored; the SeqNums of others may be given out again. */
  ghost function Remembered(wrote: map<nat, Block>, latest: map<nat, Block>): map<nat, Block>
  {
    map n | n in wrote && wrote[n].block in latest && n <= latest[wrote[n].block].seqNum :: wrote[n]
  }

  ghost function AfterRestart(v: View, d: map<nat, Loc>, out: Layout, all: seq<Block>, seqNum: nat, objectNum: nat)
    : View
  {
    v.(entries := map[], located := d, mapped := d, writes := [], wal := [], stranded := {}, dropped := {},
       retained := all, settled := None, packed := v.packed + out, present := v.present + out.Keys,
       latest := Restored(v.wrote, d), wrote := Remembered(v.wrote, Restored(v.wrote, d)),
       seqNum := seqNum, objectNum := objectNum)
  }

  /** What a recovery does in any case, whether or not it does right by every record. */
  ghost predicate Replayed(g: Geometry, v: View, d: map<nat, Loc>, out: Layout, all: seq<Block>, objectNum: nat)
  {
    && Left(v, all) && OthersStay(SavedMap(v), d, Newest(all)) && FreshIds(SavedMap(v), out)
    && AllMoveOrStay(g, SavedMap(v), d, out, Newest(all)) && OutOk(g, out, Newest(all), objectNum)
    && OutHasAll(out, Newest(all)) && NoneFrom(SavedMap(v), objectNum)
  }

  ghost predicate Counted(v: View, all: seq<Block>, seqNum: nat)
  {
    (forall b :: b in SavedMap(v) ==> SavedMap(v)[b].seqNum <= seqNum) && forall x :: x in all ==> x.seqNum <= seqNum
  }

  lemma WinnerIsMax(all: seq<Block>, x: Block)
    requires x in all
    ensures x.block in Newest(all) && x.seqNum <= Newest(all)[x.block].seqNum
  {
    NewestSound(all, x.block);
  }

  lemma WinnerLogged(all: seq<Block>, b: nat)
    requires b in Newest(all)
    ensures Newest(all)[b] in all && Newest(all)[b].block == b
  {
    NewestSound(all, b);
  }

  /** No checkpoint is ahead of the log it was drained from. */
  lemma SavedBelowWinner(v: View, all: seq<Block>, b: nat)
    requires HistoryOk(v) && Origin(v, SavedMap(v)) && Left(v, all) && b in SavedMap(v) && b in Newest(all)
    ensures SavedMap(v)[b].seqNum <= Newest(all)[b].seqNum
  {
    hide Ordered, Newest;
    LeftIsPrefix(v, all);
    WinnerLogged(all, b);
    if Logged(v.retained, b, SavedMap(v)[b].seqNum) {
      var i :| 0 <= i < |v.retained| && v.retained[i].block == b && v.retained[i].seqNum == SavedMap(v)[b].seqNum;
      assert all[i] == v.retained[i];
      WinnerIsMax(all, all[i]);
    } else {
      var i :| 0 <= i < |all| && all[i] == Newest(all)[b];
      assert v.History()[i] == all[i];
    }
  }

  lemma EndsCaughtUp(g: Geometry, d0: map<nat, Loc>, d: map<nat, Loc>, out: Layout, x: Block)
    requires EndsNewest(g, d0, d, out, x)
    ensures CaughtUp(d, x)
  {
    if Reaches(g, out, d, x) {
      var p: nat :| HoldsAt(g, out, d[x.block], x.block, p) && out[d[x.block].chunk][p] == x;
    }
  }

  /** A recovery that does right by every record leaves no block older than in the checkpoint. */
  lemma MapGrows(g: Geometry, v: View, d: map<nat, Loc>, out: Layout, all: seq<Block>, objectNum: nat, b: nat)
    requires Durable(v) && Replayed(g, v, d, out, all, objectNum)
    requires AllNewest(g, SavedMap(v), d, out, Newest(all)) && b in SavedMap(v)
    ensures b in d && SavedMap(v)[b].seqNum <= d[b].seqNum
  {
    hide HistoryOk, Origin, Kept, Published, SettledAt, Left, Newest, OutOk, OutHasAll, AllMoveOrStay, FreshIds;
    if b in Newest(all) {
      WinnerLogged(all, b);
      SavedBelowWinner(v, all, b);
      assert EndsNewest(g, SavedMap(v), d, out, Newest(all)[b]);
      EndsCaughtUp(g, SavedMap(v), d, out, Newest(all)[b]);
    } else {
      assert Get(d, b) == Get(SavedMap(v), b);
    }
  }

  /** So no chunk holds a record newer than the map: neither a new one ... */
  lemma LoggedCaughtUp(g: Geometry, d0: map<nat, Loc>, d: map<nat, Loc>, out: Layout, all: seq<Block>, x: Block)
    requires AllNewest(g, d0, d, out, Newest(all)) && x in all
    ensures CaughtUp(d, x)
  {
    hide Newest;
    WinnerIsMax(all, x);
    WinnerLogged(all, x.block);
    assert EndsNewest(g, d0, d, out, Newest(all)[x.block]);
    EndsCaughtUp(g, d0, d, out, Newest(all)[x.block]);
  }

  /** ... nor one of the old process. */
  lemma BackedCaughtUp(g: Geometry, v: View, d: map<nat, Loc>, out: Layout, all: seq<Block>, objectNum: nat, x: Block)
    requires Durable(v) && Replayed(g, v, d, out, all, objectNum)
    requires AllNewest(g, SavedMap(v), d, out, Newest(all)) && Backed(v, x)
    ensures CaughtUp(d, x)
  {
    hide Durable, Newest, OutOk, OutHasAll, AllMoveOrStay, FreshIds, OthersStay, AllNewest;
    if x in v.retained {
      LoggedCaughtUp(g, SavedMap(v), d, out, all, x);
    } else {
      MapGrows(g, v, d, out, all, objectNum, x.block);
    }
  }

  // ----- What its map leads to -----

  lemma OutKnown(g: Geometry, v: View, out: Layout, all: seq<Block>, objectNum: nat, id: nat, q: nat)
    requires Recorded(g, v) && Left(v, all) && OutOk(g, out, Newest(all), objectNum) && id in out && q < |out[id]|
    ensures out[id][q] in all && Known(v.wrote, out[id][q])
  {
    hide Newest, WroteOk, PackedKnown, PackedBacked, Known;
    LeftIsPrefix(v, all);
    WinnerLogged(all, out[id][q].block);
    var i :| 0 <= i < |all| && all[i] == out[id][q];
    assert v.History()[i] == all[i];
  }

  /** Every location of the new map holds a write of the old process, in an old chunk or a new one. */
  lemma CellHeld(g: Geometry, v: View, d: map<nat, Loc>, out: Layout, all: seq<Block>, objectNum: nat, b: nat)
    returns (p: nat)
    requires Coherent(g, v) && Recorded(g, v) && Replayed(g, v, d, out, all, objectNum) && b in d
    ensures HoldsAt(g, v.packed + out, d[b], b, p) && Known(v.wrote, (v.packed + out)[d[b].chunk][p])
    ensures d[b].chunk in v.present + out.Keys && d[b].chunk < objectNum
  {
    hide Newest, Left, LatestOk, LogOk, LogSized, PackedReal, EntriesOk, Settled, MapBelowLog, WroteOk, LogKnown,
        PackedBacked, Known, OutHasAll;
    if b in Newest(all) && Reaches(g, out, d, Newest(all)[b]) && Newest(all)[b].block == b {
      p :| HoldsAt(g, out, d[b], b, p) && out[d[b].chunk][p] == Newest(all)[b];
      OutKnown(g, v, out, all, objectNum, d[b].chunk, p);
    } else {
      if b in Newest(all) {
        WinnerLogged(all, b);
        assert MovesOrStays(g, SavedMap(v), d, out, Newest(all)[b]);
      }
      assert Get(d, b) == Get(SavedMap(v), b);
      p :| HoldsAt(g, v.packed, d[b], b, p);
      assert d[b].chunk !in out;
    }
  }

  lemma RestoredAt(g: Geometry, v: View, d: map<nat, Loc>, out: Layout, all: seq<Block>, objectNum: nat, b: nat)
    returns (p: nat)
    requires Coherent(g, v) && Recorded(g, v) && Replayed(g, v, d, out, all, objectNum) && b in d
    ensures HoldsAt(g, v.packed + out, d[b], b, p)
    ensures b in Restored(v.wrote, d) && Restored(v.wrote, d)[b] == (v.packed + out)[d[b].chunk][p]
    ensures Restored(v.wrote, d)[b].block == b && Restored(v.wrote, d)[b].seqNum == d[b].seqNum
    ensures Sized(g, Restored(v.wrote, d)[b]) && 0 < d[b].seqNum
    ensures d[b].chunk in v.present + out.Keys && d[b].chunk < objectNum
  {
    hide Coherent, Replayed, LogKnown, PackedKnown, PackedBacked;
    p := CellHeld(g, v, d, out, all, objectNum, b);
  }

  /** A record known to the old process and not newer than the map is genuine in the new one. */
  lemma CaughtUpGenuine(g: Geometry, v: View, d: map<nat, Loc>, x: Block)
    requires WroteOk(g, v.wrote, v.latest) && Known(v.wrote, x) && CaughtUp(d, x) && d[x.block].seqNum in v.wrote
    ensures Genuine(Restored(v.wrote, d), x) && Known(Remembered(v.wrote, Restored(v.wrote, d)), x)
  {
  }

  lemma NewLayoutReal(g: Geometry, v: View, d: map<nat, Loc>, out: Layout, all: seq<Block>, objectNum: nat, o: nat,
                      i: nat)
    requires Coherent(g, v) && Durable(v) && Recorded(g, v) && Replayed(g, v, d, out, all, objectNum)
    requires AllNewest(g, SavedMap(v), d, out, Newest(all)) && o in v.packed + out && i < |(v.packed + out)[o]|
    ensures var x := (v.packed + out)[o][i];
            && CaughtUp(d, x) && (o in out ==> x in all) && Sized(g, x) && Genuine(Restored(v.wrote, d), x)
            && Known(Remembered(v.wrote, Restored(v.wrote, d)), x)
  {
    hide Coherent, Durable, Newest, AllNewest, Remembered, Backed, LogKnown, Sized, Left;
    var x := (v.packed + out)[o][i];
    if o in out {
      OutKnown(g, v, out, all, objectNum, o, i);
      LoggedCaughtUp(g, SavedMap(v), d, out, all, x);
    } else {
      assert Backed(v, v.packed[o][i]);
      BackedCaughtUp(g, v, d, out, all, objectNum, x);
    }
    var _ := RestoredAt(g, v, d, out, all, objectNum, x.block);
    CaughtUpGenuine(g, v, d, x);
  }

  // ----- The new state is sound -----

  lemma CellCounted(g: Geometry, v: View, d: map<nat, Loc>, out: Layout, all: seq<Block>, seqNum: nat, objectNum: nat,
                    b: nat)
    requires Replayed(g, v, d, out, all, objectNum) && Counted(v, all, seqNum) && b in d
    ensures d[b].seqNum <= seqNum
  {
    hide Newest, Left, OutOk, OutHasAll, FreshIds, NoneFrom;
    if b in Newest(all) {
      WinnerLogged(all, b);
      assert MovesOrStays(g, SavedMap(v), d, out, Newest(all)[b]);
      if Get(d, b) != Get(SavedMap(v), b) {
        var p: nat :| HoldsAt(g, out, d[b], b, p) && out[d[b].chunk][p] == Newest(all)[b];
      }
    } else {
      assert Get(d, b) == Get(SavedMap(v), b);
    }
  }

  lemma RestartLatest(g: Geometry, v: View, d: map<nat, Loc>, out: Layout, all: seq<Block>, seqNum: nat, objectNum: nat)
    requires Coherent(g, v) && Recorded(g, v) && Replayed(g, v, d, out, all, objectNum) && Counted(v, all, seqNum)
    ensures LatestOk(g, Restored(v.wrote, d), seqNum) && Restored(v.wrote, d).Keys == d.Keys
  {
    hide Coherent, Recorded, Replayed, Counted, Restored, Sized;
    forall b | b in d
      ensures b in Restored(v.wrote, d) && Restored(v.wrote, d)[b].block == b && Sized(g, Restored(v.wrote, d)[b])
      ensures 0 < Restored(v.wrote, d)[b].seqNum <= seqNum
    {
      var _ := RestoredAt(g, v, d, out, all, objectNum, b);
      CellCounted(g, v, d, out, all, seqNum, objectNum, b);
    }
    RestoredKeys(v.wrote, d);
  }

  lemma RestoredKeys(wrote: map<nat, Block>, d: map<nat, Loc>)
    ensures Restored(wrote, d).Keys <= d.Keys
  {
  }

  lemma RestartPacked(g: Geometry, v: View, d: map<nat, Loc>, out: Layout, all: seq<Block>, objectNum: nat)
    requires Coherent(g, v) && Durable(v) && Recorded(g, v) && Replayed(g, v, d, out, all, objectNum)
    requires AllNewest(g, SavedMap(v), d, out, Newest(all))
    ensures PackedReal(g, v.packed + out, Restored(v.wrote, d))
    ensures PackedKnown(Remembered(v.wrote, Restored(v.wrote, d)), v.packed + out)
  {
    hide Coherent, Durable, Recorded, Replayed, AllNewest, Newest, Restored, Remembered, Genuine, Known, Sized;
    var packed := v.packed + out;
    forall o, i | o in packed && 0 <= i < |packed[o]|
      ensures Genuine(Restored(v.wrote, d), packed[o][i]) && Sized(g, packed[o][i])
      ensures Known(Remembered(v.wrote, Restored(v.wrote, d)), packed[o][i])
    {
      NewLayoutReal(g, v, d, out, all, objectNum, o, i);
    }
    forall o | o in packed ensures PackedOk(g, packed[o]) {
      LayoutShape(g, v, d, out, all, objectNum, o);
    }
  }

  lemma LayoutShape(g: Geometry, v: View, d: map<nat, Loc>, out: Layout, all: seq<Block>, objectNum: nat, o: nat)
    requires Coherent(g, v) && Replayed(g, v, d, out, all, objectNum) && o in v.packed + out
    ensures Increasing(Numbers((v.packed + out)[o])) && |(v.packed + out)[o]| <= g.ChunkBlocks()
  {
    hide LatestOk, LogOk, LogSized, EntriesOk, Settled, MapReal, MapBelowLog, Newest, Left, AllMoveOrStay;
    if o !in out {
      assert PackedOk(g, v.packed[o]);
    }
  }

  lemma RestartMaps(g: Geometry, v: View, d: map<nat, Loc>, out: Layout, all: seq<Block>, seqNum: nat, objectNum: nat)
    requires Coherent(g, v) && Durable(v) && Recorded(g, v) && Replayed(g, v, d, out, all, objectNum)
    requires AllNewest(g, SavedMap(v), d, out, Newest(all))
    ensures MapReal(g, AfterRestart(v, d, out, all, seqNum, objectNum), d)
    ensures MapReal(g, AfterRestart(v, d, out, all, seqNum, objectNum), SavedMap(v))
  {
    hide Coherent, Durable, Recorded, Replayed, AllNewest, Newest, Restored, Remembered;
    var w := AfterRestart(v, d, out, all, seqNum, objectNum);
    forall b | b in d ensures b in w.latest && Holds(g, w.packed, d[b], b) {
      var _ := RestoredAt(g, v, d, out, all, objectNum, b);
    }
    forall b | b in d ensures d[b].chunk in w.present && d[b].chunk < objectNum {
      var _ := RestoredAt(g, v, d, out, all, objectNum, b);
    }
    forall b | b in SavedMap(v)
      ensures b in w.latest && Holds(g, w.packed, SavedMap(v)[b], b)
      ensures SavedMap(v)[b].chunk in w.present && SavedMap(v)[b].chunk < objectNum
    {
      MapGrows(g, v, d, out, all, objectNum, b);
      SavedHeld(g, v, d, out, all, objectNum, b);
    }
  }

  lemma SavedHeld(g: Geometry, v: View, d: map<nat, Loc>, out: Layout, all: seq<Block>, objectNum: nat, b: nat)
    requires Coherent(g, v) && Replayed(g, v, d, out, all, objectNum) && b in SavedMap(v)
    ensures Holds(g, v.packed + out, SavedMap(v)[b], b)
    ensures SavedMap(v)[b].chunk in v.present && SavedMap(v)[b].chunk < objectNum
  {
    hide LatestOk, LogOk, LogSized, EntriesOk, Settled, PackedReal, MapBelowLog, Newest, Left, AllMoveOrStay, OutOk;
    var l := SavedMap(v)[b];
    var p: nat :| HoldsAt(g, v.packed, l, b, p);
    assert l.chunk !in out;
    assert HoldsAt(g, v.packed + out, l, b, p);
  }

  lemma RestartCoherent(g: Geometry, v: View, d: map<nat, Loc>, out: Layout, all: seq<Block>, seqNum: nat,
                        objectNum: nat)
    requires Coherent(g, v) && Durable(v) && Recorded(g, v) && Replayed(g, v, d, out, all, objectNum)
    requires AllNewest(g, SavedMap(v), d, out, Newest(all)) && Counted(v, all, seqNum)
    ensures Coherent(g, AfterRestart(v, d, out, all, seqNum, objectNum))
  {
    hide Durable, Recorded, Replayed, AllNewest, Newest, Restored, Remembered, MapReal, PackedReal, Counted;
    var w := AfterRestart(v, d, out, all, seqNum, objectNum);
    RestartLatest(g, v, d, out, all, seqNum, objectNum);
    RestartPacked(g, v, d, out, all, objectNum);
    RestartMaps(g, v, d, out, all, seqNum, objectNum);
    assert w.Log() == [];
    forall b | b in w.latest ensures w.latest[b].seqNum == d[b].seqNum {
      var _ := RestoredAt(g, v, d, out, all, objectNum, b);
    }
  }

  /** Every cell of the new map is a surviving record, or as the checkpoint has it. */
  lemma CellFrom(g: Geometry, v: View, d: map<nat, Loc>, out: Layout, all: seq<Block>, objectNum: nat, b: nat)
    requires Coherent(g, v) && Recorded(g, v) && Replayed(g, v, d, out, all, objectNum) && b in d
    ensures b in Restored(v.wrote, d)
    ensures Restored(v.wrote, d)[b] in all || (b in SavedMap(v) && d[b] == SavedMap(v)[b])
  {
    hide Newest, Left, Coherent, LogKnown, PackedKnown, PackedBacked, OutHasAll, FreshIds, NoneFrom;
    var p := RestoredAt(g, v, d, out, all, objectNum, b);
    if b in Newest(all) {
      WinnerLogged(all, b);
      assert MovesOrStays(g, SavedMap(v), d, out, Newest(all)[b]);
      if Get(d, b) != Get(SavedMap(v), b) {
        var q: nat :| HoldsAt(g, out, d[b], b, q) && out[d[b].chunk][q] == Newest(all)[b];
        OutKnown(g, v, out, all, objectNum, d[b].chunk, q);
      }
    } else {
      assert Get(d, b) == Get(SavedMap(v), b);
    }
  }

  lemma RestartOrigin(v: View, all: seq<Block>, m: map<nat, Loc>, w: View)
    requires Left(v, all) && Origin(v, SavedMap(v)) && w.retained == all && w.History() == all
    requires forall b :: b in m ==>
               Logged(all, b, m[b].seqNum) || (b in SavedMap(v) && m[b] == SavedMap(v)[b])
    ensures Origin(w, m)
  {
    LeftIsPrefix(v, all);
    forall b | b in m ensures Logged(all, b, m[b].seqNum) || Older(m[b].seqNum, all) {
      if b in SavedMap(v) && m[b] == SavedMap(v)[b] {
        if Logged(v.retained, b, m[b].seqNum) {
          var i :| 0 <= i < |v.retained| && v.retained[i].block == b && v.retained[i].seqNum == m[b].seqNum;
          assert all[i] == v.retained[i];
        } else {
          assert forall i :: 0 <= i < |all| ==> all[i] == v.History()[i];
        }
      }
    }
  }

  lemma RestartHistory(g: Geometry, v: View, d: map<nat, Loc>, out: Layout, all: seq<Block>, objectNum: nat, i: nat)
    requires Coherent(g, v) && Durable(v) && Recorded(g, v) && Replayed(g, v, d, out, all, objectNum)
    requires AllNewest(g, SavedMap(v), d, out, Newest(all)) && i < |all|
    ensures Genuine(Restored(v.wrote, d), all[i]) && Known(Remembered(v.wrote, Restored(v.wrote, d)), all[i])
  {
    hide Coherent, Durable, Newest, AllNewest, PackedBacked, PackedKnown, Remembered, OutOk, AllMoveOrStay;
    LeftIsPrefix(v, all);
    assert v.History()[i] == all[i];
    LoggedCaughtUp(g, SavedMap(v), d, out, all, all[i]);
    var _ := RestoredAt(g, v, d, out, all, objectNum, all[i].block);
    CaughtUpGenuine(g, v, d, all[i]);
  }

  lemma WinnerDrained(g: Geometry, v: View, d: map<nat, Loc>, out: Layout, all: seq<Block>, b: nat)
    requires HistoryOk(v) && Origin(v, SavedMap(v)) && Left(v, all) && b in Newest(all)
    requires AllNewest(g, SavedMap(v), d, out, Newest(all))
    ensures Drained(d, Newest(all)[b])
  {
    hide HistoryOk, Origin, Left, Newest;
    WinnerLogged(all, b);
    assert EndsNewest(g, SavedMap(v), d, out, Newest(all)[b]);
    if b in SavedMap(v) {
      SavedBelowWinner(v, all, b);
    }
  }

  lemma RestartDurable(g: Geometry, v: View, d: map<nat, Loc>, out: Layout, all: seq<Block>, seqNum: nat,
                       objectNum: nat)
    requires Coherent(g, v) && Durable(v) && Recorded(g, v) && Replayed(g, v, d, out, all, objectNum)
    requires AllNewest(g, SavedMap(v), d, out, Newest(all))
    ensures Durable(AfterRestart(v, d, out, all, seqNum, objectNum))
  {
    hide Coherent, Recorded, Replayed, AllNewest, Newest, Restored, Remembered, Genuine, Drained, Origin, Kept,
        Published, SettledAt, Ordered, HistoryOk;
    var w := AfterRestart(v, d, out, all, seqNum, objectNum);
    assert w.History() == all;
    forall i | 0 <= i < |all| ensures Genuine(w.latest, all[i]) {
      RestartHistory(g, v, d, out, all, objectNum, i);
    }
    RestartHistoryOk(g, v, d, out, all, objectNum, w);
    RestartOrigins(g, v, d, out, all, objectNum, w);
    RestartKept(g, v, d, out, all, objectNum, w);
    RestartPublished(g, v, d, out, all, objectNum, w);
  }

  lemma RestartHistoryOk(g: Geometry, v: View, d: map<nat, Loc>, out: Layout, all: seq<Block>, objectNum: nat, w: View)
    requires Durable(v) && Replayed(g, v, d, out, all, objectNum)
    requires w.History() == all && w.retained == all && w.stranded == {}
    requires forall i :: 0 <= i < |all| ==> Genuine(w.latest, all[i])
    ensures HistoryOk(w)
  {
    hide Origin, Kept, Published, SettledAt, Newest, OthersStay, FreshIds, AllMoveOrStay, OutOk, OutHasAll, NoneFrom;
    LeftIsPrefix(v, all);
    assert v.History() == all + v.History()[|all|..];
    OrderedConcat(all, v.History()[|all|..]);
  }

  lemma RestartOrigins(g: Geometry, v: View, d: map<nat, Loc>, out: Layout, all: seq<Block>, objectNum: nat, w: View)
    requires Coherent(g, v) && Durable(v) && Recorded(g, v) && Replayed(g, v, d, out, all, objectNum)
    requires w.History() == all && w.retained == all
    ensures Origin(w, d) && Origin(w, SavedMap(v))
  {
    hide Coherent, Recorded, HistoryOk, Origin, Kept, Published, SettledAt, Newest;
    forall b | b in d ensures Logged(all, b, d[b].seqNum) || (b in SavedMap(v) && d[b] == SavedMap(v)[b]) {
      var _ := RestoredAt(g, v, d, out, all, objectNum, b);
      CellFrom(g, v, d, out, all, objectNum, b);
      if Restored(v.wrote, d)[b] in all {
        var i :| 0 <= i < |all| && all[i] == Restored(v.wrote, d)[b];
      }
    }
    RestartOrigin(v, all, d, w);
    RestartOrigin(v, all, SavedMap(v), w);
  }

  lemma RestartKept(g: Geometry, v: View, d: map<nat, Loc>, out: Layout, all: seq<Block>, objectNum: nat, w: View)
    requires Coherent(g, v) && Recorded(g, v) && Replayed(g, v, d, out, all, objectNum)
    requires w.History() == all && w.saved == v.saved && w.latest == Restored(v.wrote, d)
    ensures Kept(w)
  {
    hide Coherent, Recorded, Replayed, Restored;
    RestoredKeys(v.wrote, d);
    forall b | b in w.latest ensures w.latest[b] in all || Drained(SavedMap(v), w.latest[b]) {
      var _ := RestoredAt(g, v, d, out, all, objectNum, b);
      CellFrom(g, v, d, out, all, objectNum, b);
    }
  }

  lemma RestartPublished(g: Geometry, v: View, d: map<nat, Loc>, out: Layout, all: seq<Block>, objectNum: nat, w: View)
    requires Durable(v) && Replayed(g, v, d, out, all, objectNum)
    requires AllNewest(g, SavedMap(v), d, out, Newest(all)) && w.retained == all && w.mapped == d
    ensures Published(w)
  {
    hide HistoryOk, Origin, Kept, SettledAt, Newest, Drained, AllNewest, OthersStay, FreshIds, AllMoveOrStay, OutOk;
    forall b | b in Newest(all) ensures Drained(d, Newest(all)[b]) {
      WinnerDrained(g, v, d, out, all, b);
    }
  }

  lemma RestartBacked(g: Geometry, v: View, d: map<nat, Loc>, out: Layout, all: seq<Block>, objectNum: nat, w: View)
    requires Coherent(g, v) && Durable(v) && Recorded(g, v) && Replayed(g, v, d, out, all, objectNum)
    requires AllNewest(g, SavedMap(v), d, out, Newest(all))
    requires w.packed == v.packed + out && w.retained == all && w.mapped == d && w.saved == v.saved
    ensures PackedBacked(w)
  {
    hide Coherent, Durable, AllNewest, Newest, Restored, Remembered, WroteOk, LogKnown, PackedKnown, CaughtUp, Genuine,
        OutOk, AllMoveOrStay, OthersStay, FreshIds, OutHasAll, NoneFrom;
    forall o, i | o in w.packed && 0 <= i < |w.packed[o]| ensures Backed(w, w.packed[o][i]) {
      NewLayoutReal(g, v, d, out, all, objectNum, o, i);
      if o !in out {
        assert Backed(v, v.packed[o][i]);
      }
    }
  }

  lemma RestartRecorded(g: Geometry, v: View, d: map<nat, Loc>, out: Layout, all: seq<Block>, seqNum: nat,
                        objectNum: nat)
    requires Coherent(g, v) && Durable(v) && Recorded(g, v) && Replayed(g, v, d, out, all, objectNum)
    requires AllNewest(g, SavedMap(v), d, out, Newest(all))
    ensures Recorded(g, AfterRestart(v, d, out, all, seqNum, objectNum))
  {
    hide Coherent, Durable, Replayed, AllNewest, Newest, Known, PackedKnown, PackedBacked, LogKnown;
    var w := AfterRestart(v, d, out, all, seqNum, objectNum);
    assert w.History() == all;
    RestartPacked(g, v, d, out, all, objectNum);
    RestartBacked(g, v, d, out, all, objectNum, w);
    assert LogKnown(w.wrote, all) by {
      forall i | 0 <= i < |all| ensures Known(w.wrote, all[i]) {
        RestartHistory(g, v, d, out, all, objectNum, i);
      }
      AllKnown(w.wrote, all);
    }
  }

  lemma AllKnown(wrote: map<nat, Block>, log: seq<Block>)
    requires forall i :: 0 <= i < |log| ==> Known(wrote, log[i])
    ensures LogKnown(wrote, log)
  {
  }

  // ----- It is sound only if the recovery did right by every record -----

  lemma CoherentNewest(g: Geometry, v: View, d: map<nat, Loc>, out: Layout, all: seq<Block>, seqNum: nat,
                       objectNum: nat)
    requires Durable(v) && WroteOk(g, v.wrote, v.latest) && Replayed(g, v, d, out, all, objectNum)
    requires Coherent(g, AfterRestart(v, d, out, all, seqNum, objectNum))
    ensures AllNewest(g, SavedMap(v), d, out, Newest(all))
  {
    hide HistoryOk, Origin, Kept, Published, SettledAt, Newest, LatestOk, LogOk, LogSized, EntriesOk, Settled, MapReal,
        MapBelowLog, Left;
    var w := AfterRestart(v, d, out, all, seqNum, objectNum);
    forall b | b in Newest(all) ensures EndsNewest(g, SavedMap(v), d, out, Newest(all)[b]) {
      var x := Newest(all)[b];
      WinnerLogged(all, b);
      assert InSome(out, x);
      var id, q :| id in out && 0 <= q < |out[id]| && out[id][q] == x;
      assert w.packed[id] == out[id];
      assert Genuine(w.latest, w.packed[id][q]);
      assert MovesOrStays(g, SavedMap(v), d, out, x);
      if b in SavedMap(v) {
        SavedBelowWinner(v, all, b);
      }
    }
  }

  lemma CoherentCounted(g: Geometry, v: View, d: map<nat, Loc>, out: Layout, all: seq<Block>, seqNum: nat,
                        objectNum: nat, b: nat)
    requires Coherent(g, v) && Durable(v) && Recorded(g, v) && Replayed(g, v, d, out, all, objectNum)
    requires Coherent(g, AfterRestart(v, d, out, all, seqNum, objectNum)) && b in SavedMap(v)
    ensures SavedMap(v)[b].seqNum <= seqNum
  {
    hide Durable, Replayed, Newest, LogOk, LogSized, EntriesOk, Settled, MapReal, MapBelowLog, PackedReal, Restored,
        WroteOk, LogKnown, PackedKnown, PackedBacked, AllNewest;
    CoherentNewest(g, v, d, out, all, seqNum, objectNum);
    MapGrows(g, v, d, out, all, objectNum, b);
    var _ := RestoredAt(g, v, d, out, all, objectNum, b);
  }

  // ----- What the guest finds -----

  /** A block whose newest write is on disk is restored to it. */
  lemma SurvivorRestored(g: Geometry, v: View, d: map<nat, Loc>, out: Layout, all: seq<Block>, objectNum: nat, b: nat)
    requires Coherent(g, v) && Durable(v) && Recorded(g, v) && Replayed(g, v, d, out, all, objectNum)
    requires AllNewest(g, SavedMap(v), d, out, Newest(all)) && b in v.latest && Survives(v, all, b)
    ensures b in Restored(v.wrote, d) && Restored(v.wrote, d)[b] == v.latest[b]
  {
    hide Coherent, WroteOk, LogKnown, PackedBacked, Left, AllNewest, Newest, Kept, Origin, Published, SettledAt,
        Survives, HistoryOk, OthersStay, FreshIds, AllMoveOrStay, OutHasAll, NoneFrom;
    SurvivorReached(g, v, all, d, out, b);
    var x := v.latest[b];
    var p: nat :| HoldsAt(g, v.packed + out, d[x.block], x.block, p) && (v.packed + out)[d[x.block].chunk][p] == x;
    var _ := RestoredAt(g, v, d, out, all, objectNum, x.block);
    if d[x.block].chunk in out {
      OutKnown(g, v, out, all, objectNum, d[x.block].chunk, p);
    }
    LatestBlock(g, v, b);
  }

  lemma LatestBlock(g: Geometry, v: View, b: nat)
    requires Coherent(g, v) && b in v.latest
    ensures v.latest[b].block == b
  {
  }

  /** No block is restored to anything but an old write of it. */
  lemma RestoredIsOld(g: Geometry, v: View, d: map<nat, Loc>, b: nat)
    requires WroteOk(g, v.wrote, v.latest) && b in Restored(v.wrote, d)
    ensures Genuine(v.latest, Restored(v.wrote, d)[b])
  {
  }
}
