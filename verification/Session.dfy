/**
 Whole runs of a volume: guest reads and writes mixed with flushes, drains,
 checkpoints, sweeps and clean reopens, with any of the background work failing.
 */
module Session {
  import opened Bytes
  import opened Extents
  import opened Chunks
  import opened FlatDisk
  import opened Volume
  import opened Blocks
  import opened Sealing
  import opened VolumeState
  import opened Takeover
  import opened Restart

  datatype Op =
    | Write(offset: nat, data: seq<byte>)
    | Read(offset: nat, length: nat)
    | Flush(accepted: nat)
    | Consolidate(force: bool, fate: nat -> Fate)
    | Checkpoint(timestamp: nat, putOk: bool)
    | Drain(accepted: nat, fate: nat -> Fate, timestamp: nat, putOk: bool)
    | Sweep(accepted: nat, fate: nat -> Fate, timestamp: nat, putOk: bool, floor: nat, refuses: nat -> bool)
    | Reopen(objectNum: nat)
  {
    /** Clocks and counters are 64 bits wide. */
    predicate Fits()
    {
      match this
      case Checkpoint(timestamp, _) => timestamp < Capacity(8)
      case Drain(_, _, timestamp, _) => timestamp < Capacity(8)
      case Sweep(_, _, timestamp, _, _, _) => timestamp < Capacity(8)
      case Reopen(objectNum) => objectNum <= Capacity(8)
      case _ => true
    }
  }

  /** What the guest sees: a write with the bytes that took effect, or the answer to a read. */
  datatype Event =
    | Wrote(offset: nat, data: seq<byte>, done: nat, error: Option<string>)
    | Got(offset: nat, length: nat, result: ReadResult)

  /** A flat array of bytes after one event. */
  function Effect(d: seq<byte>, e: Event): seq<byte>
  {
    match e
    case Wrote(offset, data, done, _) =>
      if done <= |data| && offset + done <= |d| then Splice(d, offset, data[..done]) else d
    case Got(_, _, _) => d
  }

  function Replay(d: seq<byte>, events: seq<Event>): seq<byte>
  {
    if |events| == 0 then d else Effect(Replay(d, events[..|events| - 1]), events[|events| - 1])
  }

  /** The answer a flat array of size bytes gives, and nothing acknowledged was cut short. */
  ghost predicate Faithful(d: seq<byte>, size: nat, e: Event)
  {
    match e
    case Wrote(offset, data, done, error) =>
      && (error.None? ==> 0 < |data| && offset + |data| <= size && done == |data|)
      && (offset + |data| > size || |data| == 0 ==> done == 0)
    case Got(offset, length, result) =>
      && (offset > size ==> result == ReadError("request too large"))
      && (offset <= size < offset + length ==> result == ReadError("request out of range"))
      && (0 < offset + length <= size <= |d| ==> result.Data? && result.bytes == d[offset..offset + length])
  }

  /** A write inside the volume was acknowledged, unless it touched a short last block. */
  ghost predicate Acknowledged(g: Geometry, size: nat, e: Event)
    requires g.blockSize > 0
  {
    && e.Wrote? && 0 < |e.data| && e.offset + |e.data| <= size
    && LastBlockFits(e.offset, |e.data|, size, g.blockSize)
    ==> e.error.None?
  }

  ghost predicate AllAcknowledged(g: Geometry, size: nat, events: seq<Event>)
    requires g.blockSize > 0
  {
    forall i :: 0 <= i < |events| ==> Acknowledged(g, size, events[i])
  }

  /** The most SeqNums the writes can have used: one per byte. */
  function Spent(events: seq<Event>): nat
  {
    if |events| == 0 then 0
    else
      var e := events[|events| - 1];
      Spent(events[..|events| - 1]) + if e.Wrote? then |e.data| else 0
  }

  lemma SpentMore(events: seq<Event>, e: Event)
    ensures Spent(events + [e]) == Spent(events) + if e.Wrote? then |e.data| else 0
  {
    assert (events + [e])[..|events|] == events;
  }

  /** One event per guest operation, in order. */
  function Guest(ops: seq<Op>): seq<Op>
  {
    if |ops| == 0 then []
    else
      var op := ops[|ops| - 1];
      if op.Write? || op.Read? then Guest(ops[..|ops| - 1]) + [op] else Guest(ops[..|ops| - 1])
  }

  ghost predicate Answers(op: Op, e: Event)
  {
    match op
    case Write(offset, data) => e.Wrote? && e.offset == offset && e.data == data
    case Read(offset, length) => e.Got? && e.offset == offset && e.length == length
    case _ => false
  }

  ghost predicate AllAnswered(ops: seq<Op>, events: seq<Event>)
  {
    |events| == |Guest(ops)| && forall i :: 0 <= i < |events| ==> Answers(Guest(ops)[i], events[i])
  }

  lemma AnsweredNext(ops: seq<Op>, i: nat, events: seq<Event>)
    requires i < |ops| && AllAnswered(ops[..i], events)
    ensures !ops[i].Write? && !ops[i].Read? ==> AllAnswered(ops[..i + 1], events)
    ensures ops[i].Write? || ops[i].Read? ==> forall e :: Answers(ops[i], e) ==> AllAnswered(ops[..i + 1], events + [e])
  {
    assert ops[..i + 1][..i] == ops[..i];
  }

  ghost predicate AllFaithful(d: seq<byte>, size: nat, events: seq<Event>)
  {
    forall i :: 0 <= i < |events| ==> Faithful(Replay(d, events[..i]), size, events[i])
  }

  lemma FaithfulGrows(d: seq<byte>, size: nat, events: seq<Event>, e: Event)
    requires AllFaithful(d, size, events) && Faithful(Replay(d, events), size, e)
    ensures AllFaithful(d, size, events + [e])
    ensures Replay(d, events + [e]) == Effect(Replay(d, events), e)
  {
    var all := events + [e];
    assert all[..|events|] == events;
    forall i | 0 <= i < |all| ensures Faithful(Replay(d, all[..i]), size, all[i]) {
      if i < |events| {
        assert all[..i] == events[..i];
      }
    }
  }

  // ----- What a byte holds, write by write -----

  /** The write reached the byte at p. */
  predicate Reached(e: Event, p: nat, size: nat)
  {
    e.Wrote? && e.done <= |e.data| && e.offset + e.done <= size && e.offset <= p < e.offset + e.done
  }

  /** The byte the last write to reach p put there, or what was there at first. */
  function LastByte(d: seq<byte>, events: seq<Event>, p: nat): byte
    requires p < |d|
  {
    if |events| == 0 then d[p]
    else
      var e := events[|events| - 1];
      if Reached(e, p, |d|) then e.data[p - e.offset] else LastByte(d, events[..|events| - 1], p)
  }

  lemma {:induction false} ReplayByte(d: seq<byte>, events: seq<Event>, p: nat)
    requires p < |d|
    ensures |Replay(d, events)| == |d| && Replay(d, events)[p] == LastByte(d, events, p)
  {
    if |events| > 0 {
      var n := |events| - 1;
      ReplayByte(d, events[..n], p);
      var e := events[n];
      if e.Wrote? && e.done <= |e.data| && e.offset + e.done <= |d| {
        SpliceStores(Replay(d, events[..n]), e.offset, e.data[..e.done]);
      }
    }
  }

  /** A read inside the volume answers, byte by byte, with the last write to reach it. */
  ghost predicate ReadsLast(d: seq<byte>, size: nat, events: seq<Event>, i: nat)
    requires i < |events|
  {
    var e := events[i];
    e.Got? && 0 < e.length && e.offset + e.length <= size <= |d| ==>
      && e.result.Data? && |e.result.bytes| == e.length
      && forall k :: 0 <= k < e.length ==> e.result.bytes[k] == LastByte(d, events[..i], e.offset + k)
  }

  ghost predicate AllReadLast(d: seq<byte>, size: nat, events: seq<Event>)
  {
    forall i :: 0 <= i < |events| ==> ReadsLast(d, size, events, i)
  }

  lemma FaithfulReadsLast(d: seq<byte>, size: nat, events: seq<Event>)
    requires AllFaithful(d, size, events)
    ensures AllReadLast(d, size, events)
  {
    hide LastByte, Replay;
    forall i | 0 <= i < |events| ensures ReadsLast(d, size, events, i) {
      var e := events[i];
      assert Faithful(Replay(d, events[..i]), size, e);
      if e.Got? && 0 < e.length && e.offset + e.length <= size <= |d| {
        forall p | 0 <= p < |d|
          ensures |Replay(d, events[..i])| == |d| && Replay(d, events[..i])[p] == LastByte(d, events[..i], p)
        {
          ReplayByte(d, events[..i], p);
        }
        assert |Replay(d, events[..i])| == |d| by {
          ReplayByte(d, events[..i], 0);
        }
      }
    }
  }

  /** No write of the events reaches the bytes from lo to hi. */
  ghost predicate Untouched(events: seq<Event>, lo: nat, hi: nat, size: nat)
  {
    forall i, p :: 0 <= i < |events| && lo <= p < hi ==> !Reached(events[i], p, size)
  }

  lemma {:induction false} UntouchedByte(d: seq<byte>, events: seq<Event>, i: nat, lo: nat, hi: nat, p: nat)
    requires i <= |events| && lo <= p < hi <= |d| && Untouched(events[i..], lo, hi, |d|)
    ensures LastByte(d, events, p) == LastByte(d, events[..i], p)
    decreases |events|
  {
    if i == |events| {
      assert events[..i] == events;
    } else {
      var n := |events| - 1;
      assert events[i..][n - i] == events[n];
      assert !Reached(events[i..][n - i], p, |d|);
      assert events[..n][i..] == events[i..n] && events[..n][..i] == events[..i];
      forall j, q | 0 <= j < n - i && lo <= q < hi ensures !Reached(events[..n][i..][j], q, |d|) {
        assert events[..n][i..][j] == events[i..][j];
      }
      UntouchedByte(d, events[..n], i, lo, hi, p);
    }
  }

  /** A read inside an acknowledged write, with no later write in between, returns that write's own bytes. */
  lemma ReadsOwnWrite(d: seq<byte>, size: nat, events: seq<Event>, i: nat, j: nat)
    requires AllFaithful(d, size, events) && size <= |d| && i < j < |events|
    requires events[i].Wrote? && events[i].error.None? && events[j].Got? && 0 < events[j].length
    requires var w, r := events[i], events[j];
             && w.offset <= r.offset && r.offset + r.length <= w.offset + |w.data|
             && Untouched(events[i + 1..j], r.offset, r.offset + r.length, |d|)
    ensures var w, r := events[i], events[j];
            r.result.Data? && r.result.bytes == w.data[r.offset - w.offset..r.offset - w.offset + r.length]
  {
    hide Replay;
    var w, r := events[i], events[j];
    assert Faithful(Replay(d, events[..i]), size, w);
    FaithfulReadsLast(d, size, events);
    assert ReadsLast(d, size, events, j);
    var before := events[..j];
    assert before[i + 1..] == events[i + 1..j] && before[..i + 1][i] == w;
    forall k | 0 <= k < r.length ensures r.result.bytes[k] == w.data[r.offset - w.offset + k] {
      UntouchedByte(d, before, i + 1, r.offset, r.offset + r.length, r.offset + k);
    }
  }

  method GuestWrite(vb: VB, offset: nat, data: seq<byte>) returns (e: Event)
    requires vb.Valid()
    modifies vb, vb.store
    ensures vb.Valid() && |vb.disk| == |old(vb.disk)|
    ensures vb.disk == Effect(old(vb.disk), e) && Faithful(old(vb.disk), vb.size, e) && Answers(Write(offset, data), e)
    ensures vb.seqNum <= old(vb.seqNum) + |data| && vb.g.blockSize > 0
    ensures old(vb.seqNum) + |data| <= vb.SeqLimit() ==> Acknowledged(vb.g, vb.size, e)
  {
    hide VB.Valid, Times, LastBlockFits;
    vb.Sizes();
    ghost var before := vb.disk;
    var error, done := vb.WriteAt(offset, data);
    e := Wrote(offset, data, done, error);
    if offset + |data| > vb.size || |data| == 0 {
      EmptyEffect(before, e);
    }
  }

  lemma EmptyEffect(d: seq<byte>, e: Event)
    requires e.Wrote? && e.done == 0
    ensures Effect(d, e) == d
  {
  }

  method GuestRead(vb: VB, offset: nat, length: nat) returns (e: Event)
    requires vb.Valid()
    ensures Effect(vb.disk, e) == vb.disk && Faithful(vb.disk, vb.size, e) && Answers(Read(offset, length), e)
  {
    hide VB.Valid;
    var result := vb.ReadAt(offset, length);
    e := Got(offset, length, result);
  }

  /** No step of a drain fails, and none before it left a segment behind. */
  ghost predicate Calm(vb: VB, accepted: nat, fate: nat -> Fate, putOk: bool)
    reads vb
  {
    AllWell(|vb.writes|, |vb.wal|, vb.objectNum, accepted, fate, putOk) && vb.v.stranded == {}
  }

  /** Background work and reopens never change what the volume holds, and do what they are for. */
  method Background(vb: VB, op: Op)
    requires vb.Valid() && op.Fits() && !op.Write? && !op.Read?
    modifies vb, vb.blockMap, vb.store
    ensures vb.Valid() && vb.disk == old(vb.disk) && vb.seqNum == old(vb.seqNum)
    ensures op.Flush? && op.accepted >= |old(vb.writes)| ==> vb.writes == [] && vb.wal == old(vb.wal) + old(vb.writes)
    ensures op.Consolidate? && op.force ==> vb.wal == []
    ensures op.Checkpoint? && op.putOk ==> !vb.dirty
    ensures op.Drain? && old(Calm(vb, op.accepted, op.fate, op.putOk)) ==>
              !vb.dirty && vb.store.entries == map[] && vb.writes == [] && vb.wal == []
    ensures op.Sweep? && vb.blockMap.gcEnabled && old(Calm(vb, op.accepted, op.fate, op.putOk)) ==>
              forall id :: id in vb.chunks && op.floor <= id < vb.objectNum && !op.refuses(id) ==>
                  Count(vb.blockMap.gcRefcount, id) > 0
    ensures op.Reopen? && !old(vb.dirty) && old(vb.store.entries) == map[] ==>
              vb.v == AfterReload(old(vb.v), vb.seqNum, vb.objectNum) && vb.objectNum >= op.objectNum
  {
    hide Sound, WellFormed, RefsExact, Denote;
    match op
    case Flush(accepted) =>
      var _ := vb.Flush(accepted);
    case Consolidate(force, fate) =>
      var _ := vb.WriteWALToChunk(force, fate);
    case Checkpoint(timestamp, putOk) =>
      var _ := vb.SaveLiveCheckpoint(timestamp, putOk);
    case Drain(accepted, fate, timestamp, putOk) =>
      var _ := vb.DrainToBackend(accepted, fate, timestamp, putOk);
    case Sweep(accepted, fate, timestamp, putOk, floor, refuses) =>
      var _, _ := vb.RunGCSweep(accepted, fate, timestamp, putOk, floor, refuses);
    case Reopen(objectNum) =>
      if !vb.dirty && vb.store.entries == map[] {
        vb.MappedBelowSeqNum();
        vb.Reload(vb.seqNum, objectNum);
      }
  }

  /**
   Over every run, the volume behaves as a flat array of bytes: every guest
   operation is answered in order, each read returns what the writes before it
   left there, an acknowledged write is whole, and a write is acknowledged unless
   it touches a short last block or SeqNums run out.
   */
  method Serve(vb: VB, ops: seq<Op>) returns (events: seq<Event>)
    requires vb.Valid() && forall i :: 0 <= i < |ops| ==> ops[i].Fits()
    modifies vb, vb.blockMap, vb.store
    ensures vb.Valid() && AllAnswered(ops, events)
    ensures vb.disk == Replay(old(vb.disk), events)
    ensures AllFaithful(old(vb.disk), vb.size, events) && AllReadLast(old(vb.disk), vb.size, events)
    ensures vb.g.blockSize > 0 && (old(vb.seqNum) + Spent(events) <= vb.SeqLimit() ==>
              AllAcknowledged(vb.g, vb.size, events))
  {
    hide VB.Valid, Faithful, Effect, AllFaithful, Answers, AllAnswered, Acknowledged, Replay, Spent, AllReadLast;
    events := [];
    ghost var d, start := vb.disk, vb.seqNum;
    vb.Sizes();
    NothingYet(d, vb.size, ops);
    for i := 0 to |ops|
      invariant vb.Valid() && vb.disk == Replay(d, events) && AllFaithful(d, vb.size, events)
      invariant AllAnswered(ops[..i], events) && vb.seqNum <= start + Spent(events)
      invariant start + Spent(events) <= vb.SeqLimit() ==> AllAcknowledged(vb.g, vb.size, events)
    {
      AnsweredNext(ops, i, events);
      match ops[i]
      case Write(offset, data) =>
        var e := GuestWrite(vb, offset, data);
        SpentMore(events, e);
        FaithfulGrows(d, vb.size, events, e);
        AnswerWrites(offset, data, e);
        events := events + [e];
      case Read(offset, length) =>
        var e := GuestRead(vb, offset, length);
        SpentMore(events, e);
        FaithfulGrows(d, vb.size, events, e);
        AnswerReads(vb.g, vb.size, offset, length, e);
        events := events + [e];
      case _ =>
        Background(vb, ops[i]);
    }
    assert ops[..|ops|] == ops;
    FaithfulReadsLast(d, vb.size, events);
  }

  lemma AnswerWrites(offset: nat, data: seq<byte>, e: Event)
    requires Answers(Write(offset, data), e)
    ensures e.Wrote? && e.data == data
  {
  }

  lemma AnswerReads(g: Geometry, size: nat, offset: nat, length: nat, e: Event)
    requires g.blockSize > 0 && Answers(Read(offset, length), e)
    ensures !e.Wrote? && Acknowledged(g, size, e)
  {
  }

  lemma NothingYet(d: seq<byte>, size: nat, ops: seq<Op>)
    ensures AllFaithful(d, size, []) && AllAnswered(ops[..0], []) && Replay(d, []) == d && Spent([]) == 0
  {
  }

  // ----- A crash in between -----

  /** What the next process finds: log files, saved counters, and how its uploads and its checkpoint will fare. */
  datatype Crash = Crash(cipher: Cipher, files: seq<seq<byte>>, seqNum: nat, objectNum: nat, timestamp: nat,
                         putOk: nat -> bool, saveOk: bool)

  ghost predicate Crashed(vb: VB, crash: Crash, segments: seq<seq<Block>>, stamps: seq<nat>, cut: nat)
    reads vb
  {
    && crash.seqNum <= vb.SeqLimit() && crash.objectNum <= Capacity(8) && crash.timestamp < Capacity(8)
    && crash.cipher.Opens(vb.g.blockSize) && Flatten(segments) == vb.v.retained
    && OnDisk(vb.g, crash.cipher, vb.crc, segments, vb.wal, stamps, cut, crash.files)
  }

  /** Every block whose newest write was on disk reads as before. */
  ghost predicate AllBack(g: Geometry, v: View, all: seq<Block>, before: seq<byte>, after: seq<byte>)
  {
    forall b: nat :: b < g.numBlocks && (b in v.latest ==> Survives(v, all, b)) ==>
      ReadsSame(before, after, b, g.blockSize)
  }

  lemma NewProcess(g: Geometry, v: View, w: View, out: Layout, all: seq<Block>, objectNum: nat)
    requires TakenOver(g, v, w, out, all, objectNum, true)
    ensures w.entries == map[] && w.Log() == [] && w.dropped == {}
  {
    hide Replayed, WillLean, SavedCounted, Newest;
    assert w.Log() == [];
  }

  lemma BackIsBack(g: Geometry, v: View, w: View, before: seq<byte>, after: seq<byte>, all: seq<Block>)
    requires SurvivorsBack(g, v, w, before, after, all)
    ensures AllBack(g, v, all, before, after)
  {
  }

  /** A crash and the recovery from it. */
  method ComeBack(vb: VB, crash: Crash, ghost segments: seq<seq<Block>>, ghost stamps: seq<nat>, ghost cut: nat)
    returns (ok: bool)
    requires vb.Valid() && Crashed(vb, crash, segments, stamps, cut) && SavedCounted(vb.v, crash.seqNum)
    requires WillLean(vb.g, SavedMap(vb.v), crash.objectNum, LeftLog(vb.v, crash.cipher, cut, vb.g.blockSize))
    modifies vb, vb.blockMap, vb.store
    ensures ok ==> vb.Valid()
    ensures ok ==>
              AllBack(vb.g, old(vb.v), old(LeftLog(vb.v, crash.cipher, cut, vb.g.blockSize)), old(vb.disk), vb.disk)
    ensures (forall id :: crash.putOk(id)) && crash.saveOk ==>
              RoomFor(old(vb.v), crash.objectNum, old(LeftLog(vb.v, crash.cipher, cut, vb.g.blockSize))) ==> ok
  {
    hide VB.Valid, VB.Parts, WillLean, OnDisk, Flatten, RoomFor, AllBack, LeftLog, Replayed, Capacity,
        SurvivorsBack, SavedCounted, AfterRestart, Newest;
    ghost var v, disk, all := vb.v, vb.disk, LeftLog(vb.v, crash.cipher, cut, vb.g.blockSize);
    ghost var out;
    ok, out := RestartAfterCrash(vb, crash.cipher, crash.files, crash.seqNum, crash.objectNum, crash.putOk, segments,
                                 stamps, cut);
    if ok {
      CountedMore(v, crash.seqNum, vb.seqNum);
      NewProcess(vb.g, v, vb.v, out, all, crash.objectNum);
      BackIsBack(vb.g, v, vb.v, disk, vb.disk, all);
      ok := FinishRecovery(vb, crash.timestamp, crash.saveOk);
    }
  }

  /**
   A volume that has run for any time crashes, and a new process recovers it and
   serves the guest. As far as its recovery does right by every record, the guest
   finds a flat array of bytes again, and in it every block whose newest write was on
   disk as it left it.
   */
  method ServeAfterCrash(vb: VB, crash: Crash, ops: seq<Op>, ghost segments: seq<seq<Block>>, ghost stamps: seq<nat>,
                         ghost cut: nat) returns (ok: bool, events: seq<Event>, ghost found: seq<byte>)
    requires vb.Valid() && Crashed(vb, crash, segments, stamps, cut) && forall i :: 0 <= i < |ops| ==> ops[i].Fits()
    requires WillLean(vb.g, SavedMap(vb.v), crash.objectNum, LeftLog(vb.v, crash.cipher, cut, vb.g.blockSize))
    requires SavedCounted(vb.v, crash.seqNum)
    modifies vb, vb.blockMap, vb.store
    ensures ok ==> vb.Valid() && AllAnswered(ops, events) && vb.disk == Replay(found, events)
    ensures ok ==> AllFaithful(found, vb.size, events) && AllReadLast(found, vb.size, events)
    ensures ok ==> AllBack(vb.g, old(vb.v), old(LeftLog(vb.v, crash.cipher, cut, vb.g.blockSize)), old(vb.disk), found)
    ensures (forall id :: crash.putOk(id)) && crash.saveOk ==>
              RoomFor(old(vb.v), crash.objectNum, old(LeftLog(vb.v, crash.cipher, cut, vb.g.blockSize))) ==> ok
  {
    hide VB.Valid, AllFaithful, AllReadLast, AllAnswered, Replay, WillLean, Crashed, RoomFor, AllBack, LeftLog,
        SavedCounted, AllAcknowledged, Spent;
    ok := ComeBack(vb, crash, segments, stamps, cut);
    events, found := [], vb.disk;
    if ok {
      events := Serve(vb, ops);
    }
  }

  lemma CountedMore(v: View, s: nat, t: nat)
    requires SavedCounted(v, s) && s <= t
    ensures SavedCounted(v, t)
  {
  }
}
