/** The block-to-object map of a volume, with the chunk reference counts kept beside it. */
module BlocksToObjectMap {
  import opened Bytes
  import opened Extents

  lemma FractureAll(m: Index, counted: bool, refs: map<nat, nat>, k: nat, ns: nat, ne: nat, stride: nat)
    requires WellFormed(m) && k in m && ns < ne && Overlaps(m[k], ns, ne)
    requires counted ==> RefsExact(m, refs)
    ensures WellFormed(Fracture(m, k, ns, ne, stride))
    ensures Denote(Fracture(m, k, ns, ne, stride), stride) - Span(ns, ne) == Denote(m, stride) - Span(ns, ne)
    ensures OnlyFragments(m, Fracture(m, k, ns, ne, stride), k, ns, ne)
    ensures counted ==>
      var after := CountTail(CountHead(Decrement(refs, m[k].chunk), m[k], ns), m[k], ne);
      RefsExact(Fracture(m, k, ns, ne, stride), after) && after.Keys == refs.Keys
  {
    FractureWellFormed(m, k, ns, ne, stride);
    FractureDenotes(m, k, ns, ne, stride);
    FractureKeys(m, k, ns, ne, stride);
    if counted {
      FractureCounts(m, refs, k, ns, ne, stride);
      assert k in Referrers(m, m[k].chunk);
    }
  }

  /** Tallies the runs of a map per chunk. */
  method CountRuns(m: Index) returns (refs: map<nat, nat>)
    ensures RefsExact(m, refs) && forall id :: id in refs ==> refs[id] > 0
  {
    refs := map[];
    ghost var sub: Index := map[];
    var todo := m.Keys;
    while todo != {}
      invariant todo <= m.Keys && sub.Keys == m.Keys - todo && SubIndex(sub, m)
      invariant RefsExact(sub, refs) && forall id :: id in refs ==> refs[id] > 0
    {
      var k :| k in todo;
      AddCounts(sub, refs, k, m[k]);
      refs := Increment(refs, m[k].chunk);
      sub := sub[k := m[k]];
      todo := todo - {k};
    }
    assert sub == m;
  }

  class BlocksToObject {
    var blockLookup: Index
    var gcRefcount: map<nat, nat>
    const gcEnabled: bool
    const stride: nat

    ghost predicate Valid()
      reads this
    {
      && WellFormed(blockLookup)
      && (gcEnabled ==> RefsExact(blockLookup, gcRefcount))
    }

    ghost function Contents(): map<nat, Loc>
      requires Valid()
      reads this
    {
      Denote(blockLookup, stride)
    }

    constructor (gcEnabled: bool, stride: nat)
      ensures Valid() && Contents() == map[]
      ensures this.gcEnabled == gcEnabled && this.stride == stride
      ensures blockLookup == map[] && gcRefcount == map[]
    {
      this.gcEnabled, this.stride := gcEnabled, stride;
      blockLookup, gcRefcount := map[], map[];
      new;
      forall b: nat ensures Get(Denote(blockLookup, stride), b) == Get(map[], b) {
      }
      SameMap(Denote(blockLookup, stride), map[]);
    }

    /** Finds the run covering a block, by key or by scanning in any order. */
    method ResolveBlockLookup(block: nat) returns (r: Option<(Extent, nat)>)
      requires Valid()
      ensures r.None? <==> block !in Contents()
      ensures r.Some? ==> r.value.0.start in blockLookup && blockLookup[r.value.0.start] == r.value.0
      ensures r.Some? ==> r.value.0.start + r.value.1 == block && r.value.1 < r.value.0.num
      ensures r.Some? ==> Contents()[block] == r.value.0.At(r.value.1, stride)
    {
      assert Get(Contents(), block) == Find(blockLookup, stride, block);
      if block in blockLookup {
        assert Covers(blockLookup, block, block);
        FindAt(blockLookup, stride, block, block);
        return Some((blockLookup[block], 0));
      }
      var todo := blockLookup.Keys;
      while todo != {}
        invariant todo <= blockLookup.Keys
        invariant forall k :: k in blockLookup && k !in todo ==> !Covers(blockLookup, k, block)
      {
        var k :| k in todo;
        var bl := blockLookup[k];
        if bl.start < block < bl.End() {
          FindAt(blockLookup, stride, k, block);
          return Some((bl, block - bl.start));
        }
        todo := todo - {k};
      }
      return None;
    }

    /** Inserts a run, cutting back every run it overlaps, whatever order they are visited in. */
    method InsertCoalesced(newEntry: Extent)
      requires Valid() && newEntry.Ok()
      modifies this
      ensures Valid()
      ensures Contents() == old(Contents()) + Cells(newEntry, stride)
      ensures blockLookup == Inserted(old(blockLookup), newEntry, stride)
      ensures gcEnabled ==> gcRefcount.Keys == old(gcRefcount.Keys) + {newEntry.chunk}
      ensures !gcEnabled ==> gcRefcount == old(gcRefcount)
    {
      hide TrimmedBy, Denote, RefsExact, Fracture;
      var ns, ne := newEntry.start, newEntry.End();
      ghost var m := blockLookup;
      var todo := blockLookup.Keys;
      NothingTrimmed(m, ns, ne, stride);
      assert m.Keys - todo == {};
      while todo != {}
        invariant Valid() && todo <= m.Keys
        invariant blockLookup == TrimmedBy(m, m.Keys - todo, ns, ne, stride)
        invariant gcEnabled ==> gcRefcount.Keys == old(gcRefcount.Keys)
        invariant !gcEnabled ==> gcRefcount == old(gcRefcount)
      {
        var k :| k in todo;
        TrimOld(m, m.Keys - todo, ns, ne, stride, k);
        assert m.Keys - (todo - {k}) == (m.Keys - todo) + {k};
        var existing := blockLookup[k];
        if Overlaps(existing, ns, ne) {
          TrimStep(m, m.Keys - todo, ns, ne, stride, k);
          FractureStep(k, ns, ne);
        } else {
          TrimSkips(m, m.Keys - todo, ns, ne, stride, k);
        }
        todo := todo - {k};
      }
      assert m.Keys - todo == m.Keys;
      TrimmedDenotes(m, ns, ne, stride);
      InsertedDenotes(m, newEntry, stride);
      InsertWellFormed(blockLookup, newEntry);
      if gcEnabled {
        AddCounts(blockLookup, gcRefcount, ns, newEntry);
        gcRefcount := Increment(gcRefcount, newEntry.chunk);
      }
      blockLookup := blockLookup[ns := newEntry];
    }

    /** Records a chunk nothing points into, so that a sweep can find it. */
    method TrackUnreferenced(id: nat)
      requires Valid()
      modifies this`gcRefcount
      ensures Valid()
      ensures gcRefcount == if gcEnabled && id !in old(gcRefcount) then old(gcRefcount)[id := 0] else old(gcRefcount)
    {
      if gcEnabled && id !in gcRefcount {
        ghost var before := gcRefcount;
        gcRefcount := gcRefcount[id := 0];
        assert forall i: nat :: Count(gcRefcount, i) == Count(before, i);
      }
    }

    /** Tracks every listed chunk that is not tracked yet. */
    method TrackAll(ids: set<nat>)
      requires Valid() && gcEnabled
      modifies this`gcRefcount
      ensures Valid()
      ensures gcRefcount.Keys == old(gcRefcount.Keys) + ids
    {
      var todo := ids;
      while todo != {}
        invariant Valid() && todo <= ids
        invariant gcRefcount.Keys == old(gcRefcount.Keys) + (ids - todo)
      {
        var id :| id in todo;
        TrackUnreferenced(id);
        todo := todo - {id};
      }
    }

    /** Forgets a deleted chunk. */
    method Untrack(id: nat)
      requires Valid() && gcEnabled && Count(gcRefcount, id) == 0
      modifies this`gcRefcount
      ensures Valid() && gcRefcount == old(gcRefcount) - {id}
    {
      ghost var before := gcRefcount;
      gcRefcount := gcRefcount - {id};
      assert forall i: nat :: Count(gcRefcount, i) == Count(before, i);
    }

    /** The loop body of InsertCoalesced for one overlapping run. */
    method FractureStep(k: nat, ns: nat, ne: nat)
      requires Valid() && k in blockLookup && ns < ne && Overlaps(blockLookup[k], ns, ne)
      modifies this
      ensures Valid()
      ensures blockLookup == Fracture(old(blockLookup), k, ns, ne, stride)
      ensures Contents() - Span(ns, ne) == old(Contents()) - Span(ns, ne)
      ensures gcEnabled ==> gcRefcount.Keys == old(gcRefcount.Keys)
      ensures !gcEnabled ==> gcRefcount == old(gcRefcount)
    {
      var existing := blockLookup[k];
      var lookup := blockLookup - {k};
      var refs := Decrement(gcRefcount, existing.chunk);
      if existing.start < ns {
        var head := existing.Slice(0, ns - existing.start, stride);
        lookup := lookup[existing.start := head];
        refs := Increment(refs, head.chunk);
      }
      assert lookup == WithHead(blockLookup - {k}, existing, ns, stride);
      assert refs == CountHead(Decrement(gcRefcount, existing.chunk), existing, ns);
      if existing.End() > ne {
        var tail := existing.Slice(ne - existing.start, existing.num, stride);
        lookup := lookup[ne := tail];
        refs := Increment(refs, tail.chunk);
      }
      assert lookup == Fracture(blockLookup, k, ns, ne, stride);
      FractureAll(blockLookup, gcEnabled, gcRefcount, k, ns, ne, stride);
      blockLookup := lookup;
      if gcEnabled {
        gcRefcount := refs;
      }
    }

    /** Takes over a loaded map and counts its runs per chunk. */
    method Load(m: Index)
      requires WellFormed(m)
      modifies this
      ensures Valid() && blockLookup == m
      ensures gcEnabled ==> forall id :: id in gcRefcount ==> gcRefcount[id] > 0
    {
      blockLookup := m;
      if gcEnabled {
        gcRefcount := CountRuns(m);
      }
    }
  }
}
