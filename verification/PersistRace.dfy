/**
 The three passes of MarkPersistedRange as separate steps, interleaved with
 guest rewrites, flushes and readers that are between their two locks.

 Uploads are serialised (they run under the block map's lock) and each block's
 writes are published in SeqNum order; nothing else is assumed of the schedule.
 */
module PersistRace {
  import opened Bytes
  import opened Extents
  import opened Sorting
  import opened BlockStore

  datatype Sealed = Sealed(block: nat, seqNum: nat, data: seq<byte>)

  datatype Write = Write(seqNum: nat, data: seq<byte>)

  /** A run being moved from the shards to the extent index. */
  datatype Upload =
    | Idle
    | Sampling(run: Run, eligible: seq<bool>)
    | Retiring(run: Run, eligible: seq<bool>, next: nat)

  datatype Run = Run(blocks: seq<nat>, seqNums: seq<nat>, chunk: nat, offset: nat)
  {
    ghost predicate Ok() { |blocks| == |seqNums| && Increasing(blocks) }

    function LocAt(i: nat, stride: nat): Loc
      requires i < |seqNums|
    {
      Loc(chunk, offset + Times(i, stride), seqNums[i])
    }
  }

  /** ReadEntry after it missed in the shard and before it looks at the extents. */
  datatype Reader = NoReader | Missed(block: nat, floor: nat)

  datatype State = State(
    stride: nat,
    entries: map<nat, Entry>,
    extents: Index,
    upload: Upload,
    reader: Reader,
    latest: map<nat, Write>,            // newest published write of each block
    contents: map<(nat, nat), Sealed>)  // what the chunk bytes at (chunk, offset) hold
  {
    ghost function Where(): map<nat, Loc>
      requires WellFormed(extents)
    {
      Denote(extents, stride)
    }
  }

  // ----- Steps -----

  ghost predicate Init(s: State)
  {
    && s.entries == map[] && s.extents == map[] && s.latest == map[] && s.contents == map[]
    && s.upload == Idle && s.reader == NoReader
  }

  ghost predicate GuestWrite(s: State, t: State, b: nat, data: seq<byte>, seqNum: nat)
  {
    && seqNum > 0
    && (b in s.latest ==> s.latest[b].seqNum < seqNum)
    && t == s.(entries := Written(s.entries, b, data, seqNum), latest := s.latest[b := Write(seqNum, data)])
  }

  ghost predicate Flush(s: State, t: State, b: nat)
  {
    t == s.(entries := Flushed(s.entries, b))
  }

  ghost predicate HeldAt(contents: map<(nat, nat), Sealed>, loc: Loc, b: nat)
  {
    && (loc.chunk, loc.offset) in contents
    && contents[(loc.chunk, loc.offset)].block == b
    && contents[(loc.chunk, loc.offset)].seqNum == loc.seqNum
  }

  ghost predicate Extends(c: map<(nat, nat), Sealed>, d: map<(nat, nat), Sealed>)
  {
    forall k :: k in c ==> k in d && d[k] == c[k]
  }

  /** A sealed block is a real write: old, or exactly the newest one. */
  ghost predicate Genuine(latest: map<nat, Write>, x: Sealed)
  {
    && x.block in latest
    && x.seqNum <= latest[x.block].seqNum
    && (x.seqNum == latest[x.block].seqNum ==> x.data == latest[x.block].data)
  }

  /** The chunk is on the backend and its run is about to be published. */
  ghost predicate Uploaded(s: State, t: State, run: Run)
  {
    && s.upload.Idle? && run.Ok()
    && Extends(s.contents, t.contents)
    && (forall k :: k in t.contents ==> Genuine(s.latest, t.contents[k]))
    && (forall i :: 0 <= i < |run.blocks| ==> HeldAt(t.contents, run.LocAt(i, s.stride), run.blocks[i]))
    && t == s.(upload := Sampling(run, []), contents := t.contents)
  }

  ghost predicate SampleOne(s: State, t: State)
  {
    && s.upload.Sampling? && |s.upload.eligible| < |s.upload.run.blocks| == |s.upload.run.seqNums|
    && var i := |s.upload.eligible|;
       var eligible := s.upload.eligible + [Matches(s.entries, s.upload.run.blocks[i], s.upload.run.seqNums[i])];
       t == s.(upload := Sampling(s.upload.run, eligible))
  }

  /** Pass 2, atomic under the extent lock; any index with the right meaning may result. */
  ghost predicate InstallAll(s: State, t: State)
  {
    && s.upload.Sampling? && |s.upload.eligible| == |s.upload.run.blocks| == |s.upload.run.seqNums|
    && WellFormed(s.extents) && WellFormed(t.extents)
    && Denote(t.extents, s.stride) == Denote(s.extents, s.stride)
         + Placed(s.upload.run.blocks, s.upload.run.seqNums, s.upload.eligible, s.upload.run.chunk, s.upload.run.offset,
                  s.stride, |s.upload.run.blocks|)
    && t == s.(extents := t.extents, upload := Retiring(s.upload.run, s.upload.eligible, 0))
  }

  ghost predicate RetireOne(s: State, t: State)
  {
    && s.upload.Retiring? && s.upload.next < |s.upload.run.blocks| == |s.upload.run.seqNums| == |s.upload.eligible|
    && var i := s.upload.next;
       var b := s.upload.run.blocks[i];
       var drop := s.upload.eligible[i] && Matches(s.entries, b, s.upload.run.seqNums[i]);
       t == s.(entries := if drop then s.entries - {b} else s.entries,
               upload := Retiring(s.upload.run, s.upload.eligible, i + 1))
  }

  ghost predicate Finish(s: State, t: State)
  {
    && s.upload.Retiring? && s.upload.next == |s.upload.run.blocks|
    && t == s.(upload := Idle)
  }

  ghost predicate ReadMiss(s: State, t: State, b: nat)
  {
    && s.reader.NoReader? && b in s.latest && b !in s.entries
    && t == s.(reader := Missed(b, s.latest[b].seqNum))
  }

  ghost predicate ReadDone(s: State, t: State)
  {
    s.reader.Missed? && t == s.(reader := NoReader)
  }

  datatype Step =
    | DoWrite(b: nat, data: seq<byte>, seqNum: nat)
    | DoFlush(b: nat)
    | DoUpload(run: Run)
    | DoSample
    | DoInstall
    | DoRetire
    | DoFinish
    | DoMiss(b: nat)
    | DoRead

  ghost predicate NextStep(s: State, t: State, step: Step)
  {
    match step
    case DoWrite(b, data, seqNum) => GuestWrite(s, t, b, data, seqNum)
    case DoFlush(b) => Flush(s, t, b)
    case DoUpload(run) => Uploaded(s, t, run)
    case DoSample => SampleOne(s, t)
    case DoInstall => InstallAll(s, t)
    case DoRetire => RetireOne(s, t)
    case DoFinish => Finish(s, t)
    case DoMiss(b) => ReadMiss(s, t, b)
    case DoRead => ReadDone(s, t)
  }

  ghost predicate Follows(trace: seq<State>, steps: seq<Step>)
  {
    && |trace| == |steps| + 1
    && forall i :: 0 <= i < |steps| ==> NextStep(trace[i], trace[i + 1], steps[i])
  }

  // ----- The promise -----

  /** The last write of the block among these steps. */
  ghost function LastWrite(past: seq<Step>, b: nat): Option<Write>
  {
    if |past| == 0 then None
    else
      match past[|past| - 1]
      case DoWrite(c, data, seqNum) => if c == b then Some(Write(seqNum, data)) else LastWrite(past[..|past| - 1], b)
      case _ => LastWrite(past[..|past| - 1], b)
  }

  /** Block b resolves to this write, in memory or at a location that holds it; to nothing if there is none. */
  ghost predicate ResolvesTo(s: State, b: nat, w: Option<Write>)
    requires WellFormed(s.extents)
  {
    match Resolve(s.entries, s.Where(), b)
    case Missing => w.None?
    case InMemory(e) => w == Some(Write(e.seqNum, e.data))
    case Uploaded(loc) =>
      && w.Some? && loc.seqNum == w.value.seqNum
      && (loc.chunk, loc.offset) in s.contents
      && s.contents[(loc.chunk, loc.offset)] == Sealed(b, w.value.seqNum, w.value.data)
  }

  // ----- Invariant -----

  ghost predicate EntriesNewest(entries: map<nat, Entry>, latest: map<nat, Write>)
  {
    forall b :: b in entries ==>
      && b in latest && entries[b].seqNum == latest[b].seqNum
      && entries[b].data == latest[b].data
  }

  ghost predicate LocatedReal(located: map<nat, Loc>, latest: map<nat, Write>, contents: map<(nat, nat), Sealed>)
  {
    forall b :: b in located ==> b in latest && located[b].seqNum <= latest[b].seqNum && HeldAt(contents, located[b], b)
  }

  ghost predicate AbsentIsLocated(entries: map<nat, Entry>, located: map<nat, Loc>, latest: map<nat, Write>)
  {
    forall b :: b in latest && b !in entries ==> b in located && located[b].seqNum == latest[b].seqNum
  }

  ghost predicate ContentsReal(latest: map<nat, Write>, contents: map<(nat, nat), Sealed>)
  {
    forall k :: k in contents ==> Genuine(latest, contents[k])
  }

  /** What an upload in flight may rely on. */
  ghost predicate UploadOk(u: Upload, stride: nat, entries: map<nat, Entry>, located: map<nat, Loc>,
                           contents: map<(nat, nat), Sealed>)
  {
    match u
    case Idle => true
    case Sampling(run, eligible) =>
      && run.Ok() && |eligible| <= |run.blocks|
      && (forall i :: 0 <= i < |run.blocks| ==> HeldAt(contents, run.LocAt(i, stride), run.blocks[i]))
      && (forall i :: 0 <= i < |eligible| && eligible[i] ==>
            run.blocks[i] in entries && run.seqNums[i] <= entries[run.blocks[i]].seqNum
            && (run.blocks[i] in located ==> located[run.blocks[i]].seqNum <= run.seqNums[i]))
    case Retiring(run, eligible, next) =>
      && run.Ok() && |eligible| == |run.blocks| && next <= |run.blocks|
      && (forall i :: 0 <= i < |run.blocks| && eligible[i] ==>
            run.blocks[i] in located && located[run.blocks[i]] == run.LocAt(i, stride))
  }

  ghost predicate ReaderOk(r: Reader, located: map<nat, Loc>)
  {
    r.Missed? ==> r.block in located && located[r.block].seqNum >= r.floor
  }

  ghost predicate Inv(s: State)
  {
    && WellFormed(s.extents)
    && EntriesNewest(s.entries, s.latest)
    && LocatedReal(s.Where(), s.latest, s.contents)
    && AbsentIsLocated(s.entries, s.Where(), s.latest)
    && ContentsReal(s.latest, s.contents)
    && UploadOk(s.upload, s.stride, s.entries, s.Where(), s.contents)
    && ReaderOk(s.reader, s.Where())
  }

  lemma InvNewest(s: State, b: nat)
    requires Inv(s)
    ensures ResolvesTo(s, b, if b in s.latest then Some(s.latest[b]) else None)
  {
  }

  lemma InitInv(s: State)
    requires Init(s)
    ensures Inv(s)
  {
    SameMap(Denote(s.extents, s.stride), map[]);
  }

  lemma GuestWriteInv(s: State, t: State, b: nat, data: seq<byte>, seqNum: nat)
    requires Inv(s) && GuestWrite(s, t, b, data, seqNum)
    ensures Inv(t)
  {
    assert t.Where() == s.Where();
    assert ContentsReal(t.latest, t.contents) by {
      forall k | k in t.contents ensures Genuine(t.latest, t.contents[k]) {
        assert Genuine(s.latest, s.contents[k]);
      }
    }
  }

  lemma UploadedInv(s: State, t: State, run: Run)
    requires Inv(s) && Uploaded(s, t, run)
    ensures Inv(t)
  {
    assert t.Where() == s.Where();
    forall b | b in t.Where() ensures HeldAt(t.contents, t.Where()[b], b) {
      assert HeldAt(s.contents, s.Where()[b], b);
    }
  }

  lemma SampleOneInv(s: State, t: State)
    requires Inv(s) && SampleOne(s, t)
    ensures Inv(t)
  {
    assert t.Where() == s.Where();
  }

  ghost function PlacedBy(run: Run, eligible: seq<bool>, stride: nat): map<nat, Loc>
    requires |run.blocks| == |run.seqNums| == |eligible|
  {
    Placed(run.blocks, run.seqNums, eligible, run.chunk, run.offset, stride, |run.blocks|)
  }

  /** Each location pass 2 installs belongs to one eligible position of the run. */
  lemma PlacedOrigin(run: Run, eligible: seq<bool>, stride: nat, b: nat) returns (i: nat)
    requires run.Ok() && |eligible| == |run.blocks| && b in PlacedBy(run, eligible, stride)
    ensures i < |eligible| && run.blocks[i] == b && eligible[i]
    ensures PlacedBy(run, eligible, stride)[b] == run.LocAt(i, stride)
  {
    var n := |run.blocks|;
    PlacedKeys(run.blocks, run.seqNums, eligible, run.chunk, run.offset, stride, n);
    ChosenIn(run.blocks, eligible, n, b);
    i :| 0 <= i < n && run.blocks[i] == b && eligible[i];
    PlacedAt(run.blocks, run.seqNums, eligible, run.chunk, run.offset, stride, n, i);
  }

  lemma InstalledLocated(s: State, placed: map<nat, Loc>)
    requires Inv(s) && s.upload.Sampling? && |s.upload.eligible| == |s.upload.run.blocks|
    requires placed == PlacedBy(s.upload.run, s.upload.eligible, s.stride)
    ensures LocatedReal(s.Where() + placed, s.latest, s.contents)
    ensures AbsentIsLocated(s.entries, s.Where() + placed, s.latest)
    ensures ReaderOk(s.reader, s.Where() + placed)
  {
    forall b | b in placed
      ensures b in s.entries && placed[b].seqNum <= s.entries[b].seqNum && HeldAt(s.contents, placed[b], b)
      ensures b in s.Where() ==> s.Where()[b].seqNum <= placed[b].seqNum
    {
      var i := PlacedOrigin(s.upload.run, s.upload.eligible, s.stride, b);
    }
  }

  lemma InstalledUpload(s: State, placed: map<nat, Loc>)
    requires Inv(s) && s.upload.Sampling? && |s.upload.eligible| == |s.upload.run.blocks|
    requires placed == PlacedBy(s.upload.run, s.upload.eligible, s.stride)
    ensures UploadOk(Retiring(s.upload.run, s.upload.eligible, 0), s.stride, s.entries, s.Where() + placed, s.contents)
  {
    var run := s.upload.run;
    forall i | 0 <= i < |run.blocks| && s.upload.eligible[i]
      ensures run.blocks[i] in placed && placed[run.blocks[i]] == run.LocAt(i, s.stride)
    {
      PlacedAt(run.blocks, run.seqNums, s.upload.eligible, run.chunk, run.offset, s.stride, |run.blocks|, i);
    }
  }

  lemma InstallAllInv(s: State, t: State)
    requires Inv(s) && InstallAll(s, t)
    ensures Inv(t)
  {
    var placed := PlacedBy(s.upload.run, s.upload.eligible, s.stride);
    InstalledLocated(s, placed);
    InstalledUpload(s, placed);
    assert t.Where() == s.Where() + placed;
  }

  lemma RetireOneInv(s: State, t: State)
    requires Inv(s) && RetireOne(s, t)
    ensures Inv(t)
  {
    assert t.Where() == s.Where();
  }

  lemma FlushInv(s: State, t: State, b: nat)
    requires Inv(s) && Flush(s, t, b)
    ensures Inv(t)
  {
    assert t.Where() == s.Where();
  }

  lemma QuietInv(s: State, t: State, b: nat)
    requires Inv(s) && (Finish(s, t) || ReadMiss(s, t, b) || ReadDone(s, t))
    ensures Inv(t)
  {
    assert t.Where() == s.Where();
  }

  lemma NextInv(s: State, t: State, step: Step)
    requires Inv(s) && NextStep(s, t, step)
    ensures Inv(t)
  {
    match step
    case DoWrite(b, data, seqNum) => GuestWriteInv(s, t, b, data, seqNum);
    case DoFlush(b) => FlushInv(s, t, b);
    case DoUpload(run) => UploadedInv(s, t, run);
    case DoSample => SampleOneInv(s, t);
    case DoInstall => InstallAllInv(s, t);
    case DoRetire => RetireOneInv(s, t);
    case DoFinish => QuietInv(s, t, 0);
    case DoMiss(b) => QuietInv(s, t, b);
    case DoRead => QuietInv(s, t, 0);
  }

  lemma {:induction false} RunInv(trace: seq<State>, steps: seq<Step>, i: nat)
    requires Follows(trace, steps) && Init(trace[0]) && i < |trace|
    ensures Inv(trace[i])
  {
    hide Inv, NextStep, Init;
    if i == 0 {
      InitInv(trace[0]);
    } else {
      RunInv(trace, steps, i - 1);
      NextInv(trace[i - 1], trace[i], steps[i - 1]);
    }
  }

  lemma {:induction false} LatestIs(trace: seq<State>, steps: seq<Step>, i: nat, b: nat)
    requires Follows(trace, steps) && Init(trace[0]) && i < |trace|
    ensures LastWrite(steps[..i], b) == if b in trace[i].latest then Some(trace[i].latest[b]) else None
  {
    if i != 0 {
      LatestIs(trace, steps, i - 1, b);
      assert steps[..i][..i - 1] == steps[..i - 1];
      assert NextStep(trace[i - 1], trace[i], steps[i - 1]);
    }
  }

  /** In every state of every run, every block resolves to the last write the run made to it. */
  lemma EveryBlockResolvesToNewest(trace: seq<State>, steps: seq<Step>, i: nat, b: nat)
    requires Follows(trace, steps) && Init(trace[0]) && i < |trace|
    ensures WellFormed(trace[i].extents) && ResolvesTo(trace[i], b, LastWrite(steps[..i], b))
  {
    RunInv(trace, steps, i);
    InvNewest(trace[i], b);
    LatestIs(trace, steps, i, b);
  }

  lemma {:induction false} ReaderWaits(trace: seq<State>, steps: seq<Step>, j: nat, i: nat, b: nat)
    requires Follows(trace, steps) && j < i < |trace| && steps[j] == DoMiss(b)
    requires forall k :: j < k < i ==> steps[k] != DoRead
    ensures b in trace[j].latest && trace[i].reader == Missed(b, trace[j].latest[b].seqNum)
    decreases i
  {
    assert NextStep(trace[i - 1], trace[i], steps[i - 1]);
    if j < i - 1 {
      ReaderWaits(trace, steps, j, i - 1, b);
    }
  }

  /**
   A reader that missed in the shard and has not looked at the extents yet finds a
   location there, holding a write at least as new as the last one when it missed
   and no newer than the last one now.
   */
  lemma MissedReaderResolves(trace: seq<State>, steps: seq<Step>, j: nat, i: nat, b: nat)
    requires Follows(trace, steps) && Init(trace[0]) && j < i < |trace| && steps[j] == DoMiss(b)
    requires forall k :: j < k < i ==> steps[k] != DoRead
    ensures WellFormed(trace[i].extents) && b in trace[i].Where()
    ensures var was, now, loc := LastWrite(steps[..j], b), LastWrite(steps[..i], b), trace[i].Where()[b];
            && was.Some? && now.Some? && was.value.seqNum <= loc.seqNum <= now.value.seqNum
            && HeldAt(trace[i].contents, loc, b)
            && (loc.seqNum == now.value.seqNum ==>
                  trace[i].contents[(loc.chunk, loc.offset)].data == now.value.data)
  {
    RunInv(trace, steps, i);
    LatestIs(trace, steps, j, b);
    LatestIs(trace, steps, i, b);
    ReaderWaits(trace, steps, j, i, b);
  }

  // ----- Left alone, the passes do what the method does -----

  /** The state after the passes, with only the run's still-matching blocks moved to the extents. */
  ghost predicate Persisted(s: State, t: State)
    requires s.upload.Sampling? && s.upload.run.Ok() && WellFormed(s.extents)
  {
    var run := s.upload.run;
    var eligible := Eligible(s.entries, run.blocks, run.seqNums);
    && WellFormed(t.extents) && t.Where() == s.Where() + PlacedBy(run, eligible, s.stride)
    && t == s.(entries := s.entries - Chosen(run.blocks, eligible, |run.blocks|), extents := t.extents, upload := Idle)
  }

  /** An index of single-block runs for any map. */
  lemma IndexFor(d: map<nat, Loc>, stride: nat) returns (m: Index)
    ensures WellFormed(m) && Denote(m, stride) == d
  {
    m := map b | b in d :: Extent(b, 1, d[b].chunk, d[b].offset, [d[b].seqNum]);
    forall b: nat ensures Get(Denote(m, stride), b) == Get(d, b) {
      assert Get(Denote(m, stride), b) == Find(m, stride, b);
      if b in d {
        assert Covers(m, b, b);
        FindAt(m, stride, b, b);
      }
    }
    SameMap(Denote(m, stride), d);
  }

  lemma {:induction false} SampleRest(s: State) returns (trace: seq<State>, steps: seq<Step>)
    requires s.upload.Sampling? && s.upload.run.Ok() && |s.upload.eligible| <= |s.upload.run.blocks|
    requires s.upload.eligible == Eligible(s.entries, s.upload.run.blocks, s.upload.run.seqNums)[..|s.upload.eligible|]
    ensures Follows(trace, steps) && trace[0] == s && forall step :: step in steps ==> step == DoSample
    ensures var run := s.upload.run;
            trace[|steps|] == s.(upload := Sampling(run, Eligible(s.entries, run.blocks, run.seqNums)))
    decreases |s.upload.run.blocks| - |s.upload.eligible|
  {
    var run, i := s.upload.run, |s.upload.eligible|;
    var all := Eligible(s.entries, run.blocks, run.seqNums);
    if i == |run.blocks| {
      assert all[..i] == all;
      return [s], [];
    }
    var next := s.(upload := Sampling(run, s.upload.eligible + [Matches(s.entries, run.blocks[i], run.seqNums[i])]));
    assert all[..i + 1] == all[..i] + [all[i]];
    assert NextStep(s, next, DoSample);
    var rest, more := SampleRest(next);
    trace, steps := [s] + rest, [DoSample] + more;
    FollowsFrom(s, rest, DoSample, more);
  }

  lemma FollowsFrom(s: State, trace: seq<State>, step: Step, steps: seq<Step>)
    requires Follows(trace, steps) && NextStep(s, trace[0], step)
    ensures Follows([s] + trace, [step] + steps)
    ensures ([s] + trace)[|steps| + 1] == trace[|steps|]
  {
    hide NextStep;
    forall i | 0 <= i < |steps| + 1
      ensures NextStep(([s] + trace)[i], ([s] + trace)[i + 1], ([step] + steps)[i])
    {
      if i > 0 {
        assert NextStep(trace[i - 1], trace[i], steps[i - 1]);
      }
    }
  }

  lemma FollowsOn(a: seq<State>, first: seq<Step>, b: seq<State>, last: seq<Step>)
    requires Follows(a, first) && Follows(b, last) && a[|first|] == b[0]
    ensures Follows(a + b[1..], first + last) && (a + b[1..])[|first| + |last|] == b[|last|]
  {
    hide NextStep;
    var t, steps := a + b[1..], first + last;
    forall i | 0 <= i < |steps| ensures NextStep(t[i], t[i + 1], steps[i]) {
      if i < |first| {
        assert NextStep(a[i], a[i + 1], first[i]);
      } else {
        assert NextStep(b[i - |first|], b[i - |first| + 1], last[i - |first|]);
      }
    }
  }

  lemma {:induction false} RetireRest(s: State) returns (trace: seq<State>, steps: seq<Step>)
    requires s.upload.Retiring? && s.upload.run.Ok() && s.upload.next <= |s.upload.run.blocks| == |s.upload.eligible|
    requires forall i :: s.upload.next <= i < |s.upload.eligible| ==>
               s.upload.eligible[i] == Matches(s.entries, s.upload.run.blocks[i], s.upload.run.seqNums[i])
    ensures Follows(trace, steps) && trace[0] == s
    ensures forall step :: step in steps ==> step == DoRetire || step == DoFinish
    ensures var run, eligible := s.upload.run, s.upload.eligible;
            trace[|steps|]
            == s.(entries := s.entries - (Chosen(run.blocks, eligible, |run.blocks|)
                                          - Chosen(run.blocks, eligible, s.upload.next)), upload := Idle)
    decreases |s.upload.run.blocks| - s.upload.next
  {
    var run, eligible, i := s.upload.run, s.upload.eligible, s.upload.next;
    if i == |run.blocks| {
      assert NextStep(s, s.(upload := Idle), DoFinish);
      return [s, s.(upload := Idle)], [DoFinish];
    }
    var b := run.blocks[i];
    var left := if eligible[i] then s.entries - {b} else s.entries;
    var next := s.(entries := left, upload := Retiring(run, eligible, i + 1));
    assert NextStep(s, next, DoRetire);
    IncreasingFrom(run.blocks, i);
    var rest, more := RetireRest(next);
    ChosenLater(run, eligible, i, s.entries);
    trace, steps := [s] + rest, [DoRetire] + more;
    FollowsFrom(s, rest, DoRetire, more);
  }

  lemma IncreasingFrom(blocks: seq<nat>, i: nat)
    requires Increasing(blocks) && i < |blocks|
    ensures forall j :: i < j < |blocks| ==> blocks[j] != blocks[i]
  {
  }

  lemma ChosenLater(run: Run, eligible: seq<bool>, i: nat, entries: map<nat, Entry>)
    requires run.Ok() && |eligible| == |run.blocks| && i < |eligible|
    ensures var left := if eligible[i] then entries - {run.blocks[i]} else entries;
            var all := Chosen(run.blocks, eligible, |run.blocks|);
            entries - (all - Chosen(run.blocks, eligible, i)) == left - (all - Chosen(run.blocks, eligible, i + 1))
  {
    ChosenIn(run.blocks, eligible, i, run.blocks[i]);
    ChosenIn(run.blocks, eligible, |run.blocks|, run.blocks[i]);
    IncreasingFrom(run.blocks, i);
  }

  /** With nothing in between, the passes end with exactly what MarkPersistedRange leaves. */
  lemma PersistAlone(s: State) returns (trace: seq<State>, steps: seq<Step>)
    requires Inv(s) && s.upload.Sampling? && s.upload.eligible == []
    ensures Follows(trace, steps) && trace[0] == s && Persisted(s, trace[|steps|])
    ensures forall step :: step in steps ==> step.DoSample? || step.DoInstall? || step.DoRetire? || step.DoFinish?
  {
    var run := s.upload.run;
    var eligible := Eligible(s.entries, run.blocks, run.seqNums);
    var sampled, first := SampleRest(s);
    var s1 := sampled[|first|];
    var placed := PlacedBy(run, eligible, s.stride);
    var m := IndexFor(s.Where() + placed, s.stride);
    var s2 := s1.(extents := m, upload := Retiring(run, eligible, 0));
    assert NextStep(s1, s2, DoInstall);
    var retired, last := RetireRest(s2);
    FollowsFrom(s1, retired, DoInstall, last);
    FollowsOn(sampled, first, [s1] + retired, [DoInstall] + last);
    trace, steps := sampled + ([s1] + retired)[1..], first + ([DoInstall] + last);
  }
}
