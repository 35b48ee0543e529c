/**
 Coalesced runs of blocks, and what it means to insert one.

 BlocksToObject and the persisted half of UnifiedBlockStore both keep a map from
 a run's first block to the run. Everything here is stated against a plain map
 from block number to location: `Denote`.
 */
module Extents {
  import opened Bytes

  /** Where one block's bytes are: chunk, byte offset in it, and write generation. */
  datatype Loc = Loc(chunk: nat, offset: nat, seqNum: nat)

  /** A run of `num` consecutive blocks stored one stride apart in one chunk. */
  datatype Extent = Extent(start: nat, num: nat, chunk: nat, offset: nat, seqNums: seq<nat>)
  {
    function End(): nat { start + num }

    predicate Ok() { 0 < num <= |seqNums| }

    function At(i: nat, stride: nat): Loc
      requires i < |seqNums|
    {
      Loc(chunk, offset + Times(i, stride), seqNums[i])
    }

    /** The surviving part [from, to) of a fractured run. */
    function Slice(from: nat, to: nat, stride: nat): (r: Extent)
      requires Ok() && from < to <= num
    {
      Extent(start + from, to - from, chunk, offset + Times(from, stride), seqNums[from..to])
    }
  }

  /** The longest run a 16-bit length can express. */
  const MAX_RUN := 65535

  lemma LongestRun()
    ensures MAX_RUN + 1 == Capacity(2)
  {
    Capacities();
  }

  type Index = map<nat, Extent>

  /** Keyed by first block, non-empty, pairwise disjoint. */
  ghost predicate WellFormed(m: Index)
  {
    && (forall k :: k in m ==> m[k].start == k && m[k].Ok())
    && (forall j, k :: j in m && k in m && j < k ==> m[j].End() <= k)
  }

  ghost predicate Covers(m: Index, k: nat, b: nat)
  {
    k in m && k <= b < m[k].End()
  }

  /** Where the index says block b is. */
  ghost function Find(m: Index, stride: nat, b: nat): Option<Loc>
    requires WellFormed(m)
  {
    if k :| Covers(m, k, b) then Some(m[k].At(b - k, stride)) else None
  }

  ghost function Covered(m: Index): set<nat>
  {
    set k, b | k in m && k <= b < m[k].End() && Covers(m, k, b) :: b
  }

  function Get(d: map<nat, Loc>, b: nat): Option<Loc>
  {
    if b in d then Some(d[b]) else None
  }

  ghost predicate Reads(m: Index, stride: nat, d: map<nat, Loc>)
    requires WellFormed(m)
  {
    forall b :: Get(d, b) == Find(m, stride, b)
  }

  lemma ReadsExists(m: Index, stride: nat)
    requires WellFormed(m)
    ensures exists d :: Reads(m, stride, d)
  {
    var d := map b | b in Covered(m) :: Find(m, stride, b).value;
    assert Reads(m, stride, d);
  }

  /** The plain block map an index stands for. */
  ghost function Denote(m: Index, stride: nat): (d: map<nat, Loc>)
    requires WellFormed(m)
    ensures forall b :: Get(d, b) == Find(m, stride, b)
  {
    ReadsExists(m, stride);
    var d :| Reads(m, stride, d);
    d
  }

  lemma SumAt(c: map<nat, Loc>, d: map<nat, Loc>, b: nat)
    ensures Get(c + d, b) == if Get(d, b).Some? then Get(d, b) else Get(c, b)
  {
  }

  lemma PlusAssociates(a: map<nat, Loc>, c: map<nat, Loc>, d: map<nat, Loc>)
    ensures (a + c) + d == a + (c + d)
  {
  }

  lemma PlusUpdate(c: map<nat, Loc>, d: map<nat, Loc>, b: nat, l: Loc)
    ensures c + d[b := l] == (c + d)[b := l]
  {
  }

  lemma SameMap(c: map<nat, Loc>, d: map<nat, Loc>)
    requires forall b :: Get(c, b) == Get(d, b)
    ensures c == d
  {
    forall b: nat ensures b in c <==> b in d {
      assert Get(c, b) == Get(d, b);
    }
    forall b: nat | b in c ensures c[b] == d[b] {
      assert Get(c, b) == Get(d, b);
    }
  }

  function Span(lo: nat, hi: nat): (s: set<nat>)
    ensures forall b :: b in s <==> lo <= b < hi
    decreases hi - lo
  {
    if lo >= hi then {} else {lo} + Span(lo + 1, hi)
  }

  lemma {:induction false} SpanSize(lo: nat, hi: nat)
    requires lo <= hi
    ensures |Span(lo, hi)| == hi - lo
    decreases hi - lo
  {
    if lo < hi {
      SpanSize(lo + 1, hi);
    }
  }

  /** The plain block map of a single run. */
  ghost function Cells(e: Extent, stride: nat): (d: map<nat, Loc>)
    requires e.Ok()
    ensures forall b: nat :: Get(d, b) == if e.start <= b < e.End() then Some(e.At(b - e.start, stride)) else None
  {
    map b | b in Span(e.start, e.End()) :: e.At(b - e.start, stride)
  }

  lemma UniqueOwner(m: Index, j: nat, k: nat, b: nat)
    requires WellFormed(m) && Covers(m, j, b) && Covers(m, k, b)
    ensures j == k
  {
  }

  lemma FindAt(m: Index, stride: nat, k: nat, b: nat)
    requires WellFormed(m) && Covers(m, k, b)
    ensures Find(m, stride, b) == Some(m[k].At(b - k, stride))
  {
    var o :| Covers(m, o, b) && Find(m, stride, b) == Some(m[o].At(b - o, stride));
    UniqueOwner(m, o, k, b);
  }

  lemma SliceAt(e: Extent, from: nat, to: nat, stride: nat, i: nat)
    requires e.Ok() && from < to <= e.num && i < to - from
    ensures e.Slice(from, to, stride).Ok()
    ensures e.Slice(from, to, stride).At(i, stride) == e.At(from + i, stride)
  {
    TimesAdd(from, i, stride);
  }

  // ----- Removing and inserting whole runs -----

  lemma RemoveFind(m: Index, stride: nat, k: nat, b: nat)
    requires WellFormed(m) && k in m && WellFormed(m - {k})
    ensures Find(m - {k}, stride, b) == if k <= b < m[k].End() then None else Find(m, stride, b)
  {
    var r := m - {k};
    if o :| Covers(m, o, b) {
      FindAt(m, stride, o, b);
      if o != k {
        assert Covers(r, o, b);
        FindAt(r, stride, o, b);
        if k <= b < m[k].End() {
          UniqueOwner(m, o, k, b);
        }
      } else if p :| Covers(r, p, b) {
        UniqueOwner(m, p, k, b);
      }
    } else if p :| Covers(r, p, b) {
      assert Covers(m, p, b);
    }
  }

  /** No run of m touches [ns, ne). */
  ghost predicate Clear(m: Index, ns: nat, ne: nat)
  {
    forall k :: k in m ==> !Overlaps(m[k], ns, ne)
  }

  predicate Overlaps(e: Extent, ns: nat, ne: nat)
  {
    !(e.End() <= ns || e.start >= ne)
  }

  lemma InsertWellFormed(m: Index, e: Extent)
    requires WellFormed(m) && e.Ok() && Clear(m, e.start, e.End())
    ensures WellFormed(m[e.start := e])
    ensures e.start !in m
  {
  }

  ghost predicate SubIndex(sub: Index, m: Index)
  {
    forall k :: k in sub ==> k in m && sub[k] == m[k]
  }

  lemma SubIndexClear(sub: Index, m: Index, k: nat)
    requires WellFormed(m) && SubIndex(sub, m) && k in m && k !in sub
    ensures WellFormed(sub) && Clear(sub, k, m[k].End())
  {
  }

  lemma InsertFind(m: Index, stride: nat, e: Extent, b: nat)
    requires WellFormed(m) && e.Ok() && Clear(m, e.start, e.End()) && WellFormed(m[e.start := e])
    ensures Find(m[e.start := e], stride, b) ==
            if e.start <= b < e.End() then Some(e.At(b - e.start, stride)) else Find(m, stride, b)
  {
    var r := m[e.start := e];
    if e.start <= b < e.End() {
      assert Covers(r, e.start, b);
      FindAt(r, stride, e.start, b);
    } else if o :| Covers(r, o, b) {
      assert Covers(m, o, b);
      FindAt(m, stride, o, b);
      FindAt(r, stride, o, b);
    } else if o :| Covers(m, o, b) {
      assert Covers(r, o, b);
    }
  }

  lemma InsertDenotes(m: Index, stride: nat, e: Extent)
    requires WellFormed(m) && e.Ok() && Clear(m, e.start, e.End())
    ensures WellFormed(m[e.start := e])
    ensures Denote(m[e.start := e], stride) == Denote(m, stride) + Cells(e, stride)
  {
    InsertWellFormed(m, e);
    var r := m[e.start := e];
    var c, d := Denote(r, stride), Denote(m, stride) + Cells(e, stride);
    forall b: nat ensures Get(c, b) == Get(d, b) {
      InsertFind(m, stride, e, b);
      SumAt(Denote(m, stride), Cells(e, stride), b);
    }
    SameMap(c, d);
  }

  // ----- Fracturing a run around an overwritten range [ns, ne) -----

  function WithHead(m: Index, e: Extent, ns: nat, stride: nat): Index
    requires e.Ok() && ns < e.End()
  {
    if e.start < ns then m[e.start := e.Slice(0, ns - e.start, stride)] else m
  }

  function WithTail(m: Index, e: Extent, ne: nat, stride: nat): Index
    requires e.Ok() && e.start < ne
  {
    if e.End() > ne then m[ne := e.Slice(ne - e.start, e.num, stride)] else m
  }

  /** Replaces the run at k by whatever of it survives outside [ns, ne). */
  function Fracture(m: Index, k: nat, ns: nat, ne: nat, stride: nat): Index
    requires k in m && m[k].Ok() && Overlaps(m[k], ns, ne)
  {
    WithTail(WithHead(m - {k}, m[k], ns, stride), m[k], ne, stride)
  }

  lemma RemoveClears(m: Index, k: nat)
    requires WellFormed(m) && k in m
    ensures WellFormed(m - {k}) && Clear(m - {k}, k, m[k].End())
  {
  }

  lemma HeadInserts(r: Index, e: Extent, ns: nat, stride: nat)
    requires WellFormed(r) && e.Ok() && ns < e.End() && Clear(r, e.start, e.End())
    ensures WellFormed(WithHead(r, e, ns, stride))
    ensures e.start !in r
    ensures forall lo :: ns <= lo && e.start <= lo ==> Clear(WithHead(r, e, ns, stride), lo, e.End())
  {
    InsertWellFormed(r, e);
    if e.start < ns {
      InsertWellFormed(r, e.Slice(0, ns - e.start, stride));
    }
  }

  lemma TailInserts(h: Index, e: Extent, ne: nat, stride: nat)
    requires WellFormed(h) && e.Ok() && e.start < ne && Clear(h, ne, e.End())
    ensures WellFormed(WithTail(h, e, ne, stride))
    ensures ne < e.End() ==> ne !in h
  {
    if ne < e.End() {
      InsertWellFormed(h, e.Slice(ne - e.start, e.num, stride));
    }
  }

  lemma HeadFind(r: Index, e: Extent, ns: nat, stride: nat, b: nat)
    requires WellFormed(r) && e.Ok() && ns < e.End() && Clear(r, e.start, e.End())
    requires WellFormed(WithHead(r, e, ns, stride))
    ensures Find(WithHead(r, e, ns, stride), stride, b) ==
            if e.start <= b < ns then Some(e.At(b - e.start, stride)) else Find(r, stride, b)
  {
    if e.start < ns {
      InsertFind(r, stride, e.Slice(0, ns - e.start, stride), b);
      if e.start <= b < ns {
        SliceAt(e, 0, ns - e.start, stride, b - e.start);
      }
    }
  }

  lemma TailFind(h: Index, e: Extent, ne: nat, stride: nat, b: nat)
    requires WellFormed(h) && e.Ok() && e.start < ne && Clear(h, ne, e.End())
    requires WellFormed(WithTail(h, e, ne, stride))
    ensures Find(WithTail(h, e, ne, stride), stride, b) ==
            if ne <= b < e.End() then Some(e.At(b - e.start, stride)) else Find(h, stride, b)
  {
    if ne < e.End() {
      InsertFind(h, stride, e.Slice(ne - e.start, e.num, stride), b);
      if ne <= b < e.End() {
        SliceAt(e, ne - e.start, e.num, stride, b - ne);
      }
    }
  }

  lemma FractureWellFormed(m: Index, k: nat, ns: nat, ne: nat, stride: nat)
    requires WellFormed(m) && k in m && ns < ne && Overlaps(m[k], ns, ne)
    ensures WellFormed(Fracture(m, k, ns, ne, stride))
  {
    RemoveClears(m, k);
    HeadInserts(m - {k}, m[k], ns, stride);
    TailInserts(WithHead(m - {k}, m[k], ns, stride), m[k], ne, stride);
  }

  lemma FractureFind(m: Index, k: nat, ns: nat, ne: nat, stride: nat, b: nat)
    requires WellFormed(m) && k in m && ns < ne && Overlaps(m[k], ns, ne)
    requires b < ns || ne <= b
    requires WellFormed(Fracture(m, k, ns, ne, stride))
    ensures Find(Fracture(m, k, ns, ne, stride), stride, b) == Find(m, stride, b)
  {
    assert m[k].Ok() && m[k].start == k;
    hide WellFormed, Clear, Find;
    RemoveClears(m, k);
    HeadInserts(m - {k}, m[k], ns, stride);
    RemoveFind(m, stride, k, b);
    HeadFind(m - {k}, m[k], ns, stride, b);
    TailFind(WithHead(m - {k}, m[k], ns, stride), m[k], ne, stride, b);
    if k <= b < m[k].End() {
      assert Covers(m, k, b);
      FindAt(m, stride, k, b);
    }
  }

  /** The other runs stay as they were, and no surviving fragment overlaps the range. */
  ghost predicate OnlyFragments(m: Index, f: Index, k: nat, ns: nat, ne: nat)
  {
    && (forall j :: j in m && j != k ==> j in f && f[j] == m[j])
    && (forall j :: j in f && (j == k || j !in m) ==> !Overlaps(f[j], ns, ne))
  }

  lemma FractureKeys(m: Index, k: nat, ns: nat, ne: nat, stride: nat)
    requires WellFormed(m) && k in m && ns < ne && Overlaps(m[k], ns, ne)
    ensures OnlyFragments(m, Fracture(m, k, ns, ne, stride), k, ns, ne)
  {
    assert m[k].Ok() && m[k].start == k;
    hide WellFormed, Clear, OnlyFragments, WithHead, WithTail;
    RemoveClears(m, k);
    var h := WithHead(m - {k}, m[k], ns, stride);
    HeadInserts(m - {k}, m[k], ns, stride);
    HeadFragments(m, k, ns, ne, stride);
    TailInserts(h, m[k], ne, stride);
    TailFragments(m, h, k, ns, ne, stride);
  }

  lemma TailFragments(m: Index, h: Index, k: nat, ns: nat, ne: nat, stride: nat)
    requires k in m && m[k].Ok() && m[k].start == k && k < ne && OnlyFragments(m, h, k, ns, ne)
    requires ne < m[k].End() ==> ne !in h
    ensures OnlyFragments(m, WithTail(h, m[k], ne, stride), k, ns, ne)
  {
  }

  lemma HeadFragments(m: Index, k: nat, ns: nat, ne: nat, stride: nat)
    requires k in m && m[k].Ok() && m[k].start == k && ns < ne && Overlaps(m[k], ns, ne)
    ensures OnlyFragments(m, WithHead(m - {k}, m[k], ns, stride), k, ns, ne)
  {
  }

  /** Outside the overwritten range, fracturing changes nothing a lookup can see. */
  lemma FractureDenotes(m: Index, k: nat, ns: nat, ne: nat, stride: nat)
    requires WellFormed(m) && k in m && ns < ne && Overlaps(m[k], ns, ne)
    ensures WellFormed(Fracture(m, k, ns, ne, stride))
    ensures Denote(Fracture(m, k, ns, ne, stride), stride) - Span(ns, ne) == Denote(m, stride) - Span(ns, ne)
  {
    FractureWellFormed(m, k, ns, ne, stride);
    var f := Fracture(m, k, ns, ne, stride);
    forall b: nat
      ensures Get(Denote(f, stride) - Span(ns, ne), b) == Get(Denote(m, stride) - Span(ns, ne), b)
    {
      if b < ns || ne <= b {
        FractureFind(m, k, ns, ne, stride, b);
        assert Get(Denote(f, stride), b) == Get(Denote(m, stride), b);
      }
    }
    SameMap(Denote(f, stride) - Span(ns, ne), Denote(m, stride) - Span(ns, ne));
  }

  lemma OverrideSpan(c: map<nat, Loc>, d: map<nat, Loc>, e: Extent, stride: nat)
    requires e.Ok()
    requires c - Span(e.start, e.End()) == d - Span(e.start, e.End())
    ensures c + Cells(e, stride) == d + Cells(e, stride)
  {
    forall b: nat
      ensures Get(c + Cells(e, stride), b) == Get(d + Cells(e, stride), b)
    {
      assert Get(c - Span(e.start, e.End()), b) == Get(d - Span(e.start, e.End()), b);
      SumAt(c, Cells(e, stride), b);
      SumAt(d, Cells(e, stride), b);
    }
    SameMap(c + Cells(e, stride), d + Cells(e, stride));
  }

  // ----- What is left of an index around an overwritten range -----

  /** The run at s reaches past ne from before it. */
  predicate Straddles(m: Index, s: nat, ne: nat)
  {
    s in m && s < ne < m[s].End()
  }

  /** The surviving keys once the runs in done have been fractured. */
  ghost function TrimKeys(m: Index, done: set<nat>, ns: nat, ne: nat): set<nat>
  {
    (set k | k in m && (k !in done || k < ns || ne <= k))
    + if exists s :: s in done && Straddles(m, s, ne) then {ne} else {}
  }

  ghost function TrimAt(m: Index, done: set<nat>, ns: nat, ne: nat, stride: nat, k: nat): Extent
    requires WellFormed(m) && k in TrimKeys(m, done, ns, ne)
  {
    if k in m then
      if k in done && k < ns < m[k].End() then m[k].Slice(0, ns - k, stride) else m[k]
    else
      var s :| s in done && Straddles(m, s, ne);
      m[s].Slice(ne - s, m[s].num, stride)
  }

  ghost function TrimmedBy(m: Index, done: set<nat>, ns: nat, ne: nat, stride: nat): (t: Index)
    requires WellFormed(m)
    ensures t.Keys == TrimKeys(m, done, ns, ne)
    ensures forall k :: k in t ==> t[k] == TrimAt(m, done, ns, ne, stride, k)
  {
    map k | k in TrimKeys(m, done, ns, ne) :: TrimAt(m, done, ns, ne, stride, k)
  }

  /** The index with every run cut back to what lies outside [ns, ne). */
  ghost function Trimmed(m: Index, ns: nat, ne: nat, stride: nat): Index
    requires WellFormed(m)
  {
    TrimmedBy(m, m.Keys, ns, ne, stride)
  }

  /** The index after a run was inserted, whatever order its overlaps were visited in. */
  ghost function Inserted(m: Index, e: Extent, stride: nat): Index
    requires WellFormed(m)
  {
    Trimmed(m, e.start, e.End(), stride)[e.start := e]
  }

  lemma OneStraddler(m: Index, s: nat, t: nat, ne: nat)
    requires WellFormed(m) && Straddles(m, s, ne)
    ensures Straddles(m, t, ne) ==> s == t
    ensures ne !in m
  {
  }

  lemma NothingTrimmed(m: Index, ns: nat, ne: nat, stride: nat)
    requires WellFormed(m)
    ensures TrimmedBy(m, {}, ns, ne, stride) == m
  {
    assert TrimKeys(m, {}, ns, ne) == m.Keys;
  }

  lemma TailOf(m: Index, done: set<nat>, ns: nat, ne: nat, stride: nat, s: nat)
    requires WellFormed(m) && s in done && Straddles(m, s, ne)
    ensures ne in TrimmedBy(m, done, ns, ne, stride) && ne !in m
    ensures TrimmedBy(m, done, ns, ne, stride)[ne] == m[s].Slice(ne - s, m[s].num, stride)
  {
    OneStraddler(m, s, s, ne);
    var t :| t in done && Straddles(m, t, ne)
        && TrimAt(m, done, ns, ne, stride, ne) == m[t].Slice(ne - t, m[t].num, stride);
    OneStraddler(m, s, t, ne);
  }

  lemma TrimOld(m: Index, done: set<nat>, ns: nat, ne: nat, stride: nat, j: nat)
    requires WellFormed(m) && ns < ne && (j in m || j != ne)
    ensures j in TrimmedBy(m, done, ns, ne, stride) <==> j in m && (j !in done || j < ns || ne <= j)
    ensures j in TrimmedBy(m, done, ns, ne, stride) ==>
              TrimmedBy(m, done, ns, ne, stride)[j]
              == if j in done && j < ns < m[j].End() then m[j].Slice(0, ns - j, stride) else m[j]
  {
  }

  lemma NoTail(m: Index, done: set<nat>, ns: nat, ne: nat, stride: nat)
    requires WellFormed(m) && ne !in m && forall s :: s in done ==> !Straddles(m, s, ne)
    ensures ne !in TrimmedBy(m, done, ns, ne, stride)
  {
  }

  lemma TrimSkipsAt(m: Index, done: set<nat>, ns: nat, ne: nat, stride: nat, k: nat, j: nat)
    requires WellFormed(m) && k in m && !Overlaps(m[k], ns, ne) && ns < ne
    ensures var a, c := TrimmedBy(m, done + {k}, ns, ne, stride), TrimmedBy(m, done, ns, ne, stride);
            (j in a <==> j in c) && (j in a && j in c ==> a[j] == c[j])
  {
    hide TrimmedBy;
    if j in m || j != ne {
      TrimOld(m, done, ns, ne, stride, j);
      TrimOld(m, done + {k}, ns, ne, stride, j);
    } else if s :| s in done && Straddles(m, s, ne) {
      TailOf(m, done + {k}, ns, ne, stride, s);
      TailOf(m, done, ns, ne, stride, s);
    } else {
      NoTail(m, done, ns, ne, stride);
      NoTail(m, done + {k}, ns, ne, stride);
    }
  }

  /** A run outside the range may as well be visited. */
  lemma TrimSkips(m: Index, done: set<nat>, ns: nat, ne: nat, stride: nat, k: nat)
    requires WellFormed(m) && k in m && !Overlaps(m[k], ns, ne) && ns < ne
    ensures TrimmedBy(m, done + {k}, ns, ne, stride) == TrimmedBy(m, done, ns, ne, stride)
  {
    hide TrimmedBy, WellFormed, Overlaps;
    var a, c := TrimmedBy(m, done + {k}, ns, ne, stride), TrimmedBy(m, done, ns, ne, stride);
    forall j: nat
      ensures j in a <==> j in c
      ensures j in a && j in c ==> a[j] == c[j]
    {
      TrimSkipsAt(m, done, ns, ne, stride, k, j);
    }
  }

  /** Fracturing one more run trims by one more key. */
  lemma TrimStep(m: Index, done: set<nat>, ns: nat, ne: nat, stride: nat, k: nat)
    requires WellFormed(m) && k in m && k !in done && ns < ne && Overlaps(m[k], ns, ne)
    ensures k in TrimmedBy(m, done, ns, ne, stride) && TrimmedBy(m, done, ns, ne, stride)[k] == m[k]
    ensures Fracture(TrimmedBy(m, done, ns, ne, stride), k, ns, ne, stride) == TrimmedBy(m, done + {k}, ns, ne, stride)
  {
    var t, u := TrimmedBy(m, done, ns, ne, stride), TrimmedBy(m, done + {k}, ns, ne, stride);
    var f := Fracture(t, k, ns, ne, stride);
    forall j: nat
      ensures j in f <==> j in u
      ensures j in f && j in u ==> f[j] == u[j]
    {
      TrimStepAt(m, done, ns, ne, stride, k, j);
    }
  }

  /** Where a fractured run leaves something behind. */
  lemma FractureAt(t: Index, k: nat, ns: nat, ne: nat, stride: nat, j: nat)
    requires k in t && t[k].Ok() && t[k].start == k && Overlaps(t[k], ns, ne)
    ensures var f := Fracture(t, k, ns, ne, stride);
            && (j == ne && t[k].End() > ne ==> j in f && f[j] == t[k].Slice(ne - k, t[k].num, stride))
            && (j == k && !(j == ne && t[k].End() > ne) ==>
                (j in f <==> k < ns) && (k < ns ==> f[j] == t[k].Slice(0, ns - k, stride)))
            && (j != k && !(j == ne && t[k].End() > ne) ==> (j in f <==> j in t) && (j in t ==> f[j] == t[j]))
  {
  }

  lemma TrimStepOld(m: Index, done: set<nat>, ns: nat, ne: nat, stride: nat, k: nat, j: nat)
    requires WellFormed(m) && k in m && k !in done && ns < ne && Overlaps(m[k], ns, ne) && (j in m || j != ne)
    requires k in TrimmedBy(m, done, ns, ne, stride) && TrimmedBy(m, done, ns, ne, stride)[k] == m[k]
    ensures var f := Fracture(TrimmedBy(m, done, ns, ne, stride), k, ns, ne, stride);
            var u := TrimmedBy(m, done + {k}, ns, ne, stride);
            (j in f <==> j in u) && (j in f && j in u ==> f[j] == u[j])
  {
    hide TrimmedBy, Fracture, Extent.Slice;
    FractureAt(TrimmedBy(m, done, ns, ne, stride), k, ns, ne, stride, j);
    TrimOld(m, done, ns, ne, stride, j);
    TrimOld(m, done + {k}, ns, ne, stride, j);
  }

  lemma TrimStepAt(m: Index, done: set<nat>, ns: nat, ne: nat, stride: nat, k: nat, j: nat)
    requires WellFormed(m) && k in m && k !in done && ns < ne && Overlaps(m[k], ns, ne)
    requires k in TrimmedBy(m, done, ns, ne, stride) && TrimmedBy(m, done, ns, ne, stride)[k] == m[k]
    ensures var f := Fracture(TrimmedBy(m, done, ns, ne, stride), k, ns, ne, stride);
            var u := TrimmedBy(m, done + {k}, ns, ne, stride);
            (j in f <==> j in u) && (j in f && j in u ==> f[j] == u[j])
  {
    hide TrimmedBy, Fracture;
    if j in m || j != ne {
      TrimStepOld(m, done, ns, ne, stride, k, j);
      return;
    }
    FractureAt(TrimmedBy(m, done, ns, ne, stride), k, ns, ne, stride, j);
    if Straddles(m, k, ne) {
      TailOf(m, done + {k}, ns, ne, stride, k);
    } else if s :| s in done && Straddles(m, s, ne) {
      TailOf(m, done + {k}, ns, ne, stride, s);
      TailOf(m, done, ns, ne, stride, s);
    } else {
      NoTail(m, done, ns, ne, stride);
      NoTail(m, done + {k}, ns, ne, stride);
    }
  }

  /** Trimming clears the range and changes nothing outside it. */
  lemma TrimmedDenotes(m: Index, ns: nat, ne: nat, stride: nat)
    requires WellFormed(m) && ns < ne
    ensures WellFormed(Trimmed(m, ns, ne, stride)) && Clear(Trimmed(m, ns, ne, stride), ns, ne)
    ensures Denote(Trimmed(m, ns, ne, stride), stride) - Span(ns, ne) == Denote(m, stride) - Span(ns, ne)
  {
    hide Denote, TrimmedBy;
    var todo, t := m.Keys, m;
    NothingTrimmed(m, ns, ne, stride);
    assert m.Keys - todo == {};
    while todo != {}
      invariant todo <= m.Keys && t == TrimmedBy(m, m.Keys - todo, ns, ne, stride) && WellFormed(t)
      invariant forall k :: k in todo ==> k in t && t[k] == m[k]
      invariant forall k :: k in t && k !in todo ==> !Overlaps(t[k], ns, ne)
      invariant Denote(t, stride) - Span(ns, ne) == Denote(m, stride) - Span(ns, ne)
    {
      var k :| k in todo;
      assert m.Keys - (todo - {k}) == (m.Keys - todo) + {k};
      if Overlaps(m[k], ns, ne) {
        TrimStep(m, m.Keys - todo, ns, ne, stride, k);
        FractureDenotes(t, k, ns, ne, stride);
        FractureKeys(t, k, ns, ne, stride);
        t := Fracture(t, k, ns, ne, stride);
      } else {
        TrimSkips(m, m.Keys - todo, ns, ne, stride, k);
      }
      todo := todo - {k};
    }
    assert m.Keys - todo == m.Keys;
  }

  /** Inserting a run is exactly map override. */
  lemma InsertedDenotes(m: Index, e: Extent, stride: nat)
    requires WellFormed(m) && e.Ok()
    ensures WellFormed(Inserted(m, e, stride))
    ensures Denote(Inserted(m, e, stride), stride) == Denote(m, stride) + Cells(e, stride)
  {
    var t := Trimmed(m, e.start, e.End(), stride);
    TrimmedDenotes(m, e.start, e.End(), stride);
    InsertDenotes(t, stride, e);
    OverrideSpan(Denote(t, stride), Denote(m, stride), e, stride);
  }

  // ----- Reference counts -----

  ghost function Referrers(m: Index, id: nat): set<nat>
  {
    set k | k in m && m[k].chunk == id
  }

  function Count(refs: map<nat, nat>, id: nat): nat
  {
    if id in refs then refs[id] else 0
  }

  /** Every chunk's count is the number of live runs that point into it. */
  ghost predicate RefsExact(m: Index, refs: map<nat, nat>)
  {
    forall id: nat :: Count(refs, id) == |Referrers(m, id)|
  }

  function Decrement(refs: map<nat, nat>, id: nat): map<nat, nat>
  {
    if Count(refs, id) > 0 then refs[id := Count(refs, id) - 1] else refs
  }

  function Increment(refs: map<nat, nat>, id: nat): map<nat, nat>
  {
    refs[id := Count(refs, id) + 1]
  }

  lemma RemoveCounts(m: Index, refs: map<nat, nat>, k: nat)
    requires RefsExact(m, refs) && k in m
    ensures RefsExact(m - {k}, Decrement(refs, m[k].chunk))
  {
    forall id: nat
      ensures Count(Decrement(refs, m[k].chunk), id) == |Referrers(m - {k}, id)|
    {
      assert k in Referrers(m, m[k].chunk);
      assert Referrers(m - {k}, id) == Referrers(m, id) - {k};
    }
  }

  function CountHead(refs: map<nat, nat>, e: Extent, ns: nat): map<nat, nat>
  {
    if e.start < ns then Increment(refs, e.chunk) else refs
  }

  function CountTail(refs: map<nat, nat>, e: Extent, ne: nat): map<nat, nat>
  {
    if e.End() > ne then Increment(refs, e.chunk) else refs
  }

  lemma FractureCounts(m: Index, refs: map<nat, nat>, k: nat, ns: nat, ne: nat, stride: nat)
    requires WellFormed(m) && k in m && ns < ne && Overlaps(m[k], ns, ne)
    requires RefsExact(m, refs)
    ensures RefsExact(Fracture(m, k, ns, ne, stride),
                      CountTail(CountHead(Decrement(refs, m[k].chunk), m[k], ns), m[k], ne))
  {
    hide RefsExact, Clear;
    RemoveClears(m, k);
    var e := m[k];
    var h := WithHead(m - {k}, e, ns, stride);
    HeadInserts(m - {k}, e, ns, stride);
    TailInserts(h, e, ne, stride);
    RemoveCounts(m, refs, k);
    var refs1 := Decrement(refs, e.chunk);
    if e.start < ns {
      AddCounts(m - {k}, refs1, k, e.Slice(0, ns - k, stride));
    }
    if e.End() > ne {
      AddCounts(h, CountHead(refs1, e, ns), ne, e.Slice(ne - k, e.num, stride));
    }
  }

  lemma AddCounts(m: Index, refs: map<nat, nat>, k: nat, e: Extent)
    requires RefsExact(m, refs) && k !in m
    ensures RefsExact(m[k := e], Increment(refs, e.chunk))
  {
    forall id: nat
      ensures Count(Increment(refs, e.chunk), id) == |Referrers(m[k := e], id)|
    {
      AddReferrer(m, k, e, id);
    }
  }

  lemma AddReferrer(m: Index, k: nat, e: Extent, id: nat)
    requires k !in m
    ensures Referrers(m[k := e], id) == Referrers(m, id) + (if id == e.chunk then {k} else {})
    ensures k !in Referrers(m, id)
  {
  }

  lemma UnreferencedIsUnmapped(m: Index, refs: map<nat, nat>, stride: nat, id: nat)
    requires WellFormed(m) && RefsExact(m, refs) && Count(refs, id) == 0
    ensures forall b :: b in Denote(m, stride) ==> Denote(m, stride)[b].chunk != id
  {
    forall b | b in Denote(m, stride)
      ensures Denote(m, stride)[b].chunk != id
    {
      assert Get(Denote(m, stride), b) == Find(m, stride, b);
      var o :| Covers(m, o, b);
      FindAt(m, stride, o, b);
      assert |Referrers(m, id)| == 0;
      assert o !in Referrers(m, id);
    }
  }
}
