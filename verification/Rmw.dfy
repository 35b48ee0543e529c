/**
 Concurrent sub-block writers. Each block write locks its shard, reads the block,
 splices its bytes in, reserves a SeqNum, appends to the write buffer, publishes
 and unlocks; writers interleave at every one of these points.
 */
module Rmw {
  import opened Bytes
  import opened FlatDisk

  const NUM_LOCKS := 16

  datatype Stage =
    | Waiting
    | Locked
    | Spliced(data: seq<byte>)
    | Reserved(data: seq<byte>, seqNum: nat)
    | Buffered(data: seq<byte>, seqNum: nat)
    | Published(seqNum: nat)
    | Finished(seqNum: nat)
    | Failed

  datatype Writer = Writer(block: nat, start: nat, bytes: seq<byte>, stage: Stage)
  {
    predicate Inside()
    {
      stage.Locked? || stage.Spliced? || stage.Reserved? || stage.Buffered? || stage.Published?
    }

    /** Its SeqNum is taken but readers do not see its bytes yet. */
    predicate Committing()
    {
      stage.Reserved? || stage.Buffered?
    }
  }

  datatype Patch = Patch(seqNum: nat, start: nat, bytes: seq<byte>)

  datatype Record = Record(seqNum: nat, block: nat, data: seq<byte>)

  /** buffer is everything ever appended to the write buffer; patches, per block, every write given a SeqNum. */
  datatype State = State(
    writers: map<nat, Writer>,
    locks: map<nat, nat>,
    seqNum: nat,
    store: map<nat, (nat, seq<byte>)>,
    buffer: seq<Record>,
    patches: map<nat, seq<Patch>>)

  datatype Volume = Volume(blockSize: nat, base: nat -> seq<byte>)
  {
    ghost predicate Ok()
    {
      forall b :: |base(b)| == blockSize
    }
  }

  function Content(vol: Volume, s: State, b: nat): seq<byte>
  {
    if b in s.store then s.store[b].1 else vol.base(b)
  }

  ghost function PatchesOf(s: State, b: nat): seq<Patch>
  {
    if b in s.patches then s.patches[b] else []
  }

  function Shard(b: nat): nat
  {
    b % NUM_LOCKS
  }

  // ----- Steps -----

  datatype Step =
    | Arrive(w: nat, block: nat, start: nat, bytes: seq<byte>)
    | Acquire(w: nat)
    | Splice(w: nat)
    | Reserve(w: nat)
    | Refuse(w: nat)
    | Buffer(w: nat)
    | Publish(w: nat)
    | Release(w: nat)

  function At(s: State, w: nat, stage: Stage): State
    requires w in s.writers
  {
    s.(writers := s.writers[w := s.writers[w].(stage := stage)])
  }

  /** A full-block write starts from zeros, any other from what the block holds now. */
  function Rebuilt(vol: Volume, s: State, x: Writer): seq<byte>
    requires x.start + |x.bytes| <= vol.blockSize == |Content(vol, s, x.block)|
  {
    var from := if x.start > 0 || |x.bytes| < vol.blockSize then Content(vol, s, x.block) else Zeros(vol.blockSize);
    FlatDisk.Splice(from, x.start, x.bytes)
  }

  ghost predicate NextStep(vol: Volume, s: State, t: State, step: Step)
  {
    match step
    case Arrive(w, block, start, bytes) =>
      && w !in s.writers && 0 < |bytes| && start + |bytes| <= vol.blockSize
      && t == s.(writers := s.writers[w := Writer(block, start, bytes, Waiting)])
    case Acquire(w) =>
      && w in s.writers && s.writers[w].stage.Waiting? && Shard(s.writers[w].block) !in s.locks
      && t == At(s, w, Locked).(locks := s.locks[Shard(s.writers[w].block) := w])
    case Splice(w) =>
      && w in s.writers && s.writers[w].stage.Locked?
      && s.writers[w].start + |s.writers[w].bytes| <= vol.blockSize == |Content(vol, s, s.writers[w].block)|
      && t == At(s, w, Spliced(Rebuilt(vol, s, s.writers[w])))
    case Reserve(w) =>
      && w in s.writers && s.writers[w].stage.Spliced?
      && var x := s.writers[w];
         t == At(s, w, Reserved(x.stage.data, s.seqNum + 1))
              .(seqNum := s.seqNum + 1,
                patches := s.patches[x.block := PatchesOf(s, x.block) + [Patch(s.seqNum + 1, x.start, x.bytes)]])
    case Refuse(w) =>
      && w in s.writers && (s.writers[w].stage.Locked? || s.writers[w].stage.Spliced?)
      && t == At(s, w, Failed).(locks := s.locks - {Shard(s.writers[w].block)})
    case Buffer(w) =>
      && w in s.writers && s.writers[w].stage.Reserved?
      && var x := s.writers[w];
         t == At(s, w, Buffered(x.stage.data, x.stage.seqNum))
              .(buffer := s.buffer + [Record(x.stage.seqNum, x.block, x.stage.data)])
    case Publish(w) =>
      && w in s.writers && s.writers[w].stage.Buffered?
      && var x := s.writers[w];
         var wins := x.block !in s.store || s.store[x.block].0 < x.stage.seqNum;
         t == At(s, w, Published(x.stage.seqNum))
              .(store := if wins then s.store[x.block := (x.stage.seqNum, x.stage.data)] else s.store)
    case Release(w) =>
      && w in s.writers && s.writers[w].stage.Published?
      && t == At(s, w, Finished(s.writers[w].stage.seqNum)).(locks := s.locks - {Shard(s.writers[w].block)})
  }

  ghost predicate Init(s: State)
  {
    s.writers == map[] && s.locks == map[] && s.seqNum == 0 && s.store == map[] && s.buffer == [] && s.patches == map[]
  }

  // ----- What a list of patches amounts to -----

  ghost predicate PatchOk(blockSize: nat, p: Patch)
  {
    p.start + |p.bytes| <= blockSize
  }

  ghost predicate AllOk(blockSize: nat, ps: seq<Patch>)
  {
    forall i :: 0 <= i < |ps| ==> PatchOk(blockSize, ps[i])
  }

  /** All patches applied, in order. */
  ghost function Fold(d: seq<byte>, ps: seq<Patch>): (r: seq<byte>)
    requires AllOk(|d|, ps)
    ensures |r| == |d|
  {
    if |ps| == 0 then d
    else FlatDisk.Splice(Fold(d, ps[..|ps| - 1]), ps[|ps| - 1].start, ps[|ps| - 1].bytes)
  }

  ghost predicate InOrder(ps: seq<Patch>)
  {
    forall i, j :: 0 <= i < j < |ps| ==> ps[i].seqNum < ps[j].seqNum
  }

  /** The buffered records of block b. */
  function OfBlock(buffer: seq<Record>, b: nat): seq<Record>
  {
    if |buffer| == 0 then []
    else
      var before := OfBlock(buffer[..|buffer| - 1], b);
      if buffer[|buffer| - 1].block == b then before + [buffer[|buffer| - 1]] else before
  }

  /** One record per patch, each holding the block with all patches up to it. */
  ghost function RecordsOf(d: seq<byte>, b: nat, ps: seq<Patch>): (r: seq<Record>)
    requires AllOk(|d|, ps)
    ensures |r| == |ps|
  {
    if |ps| == 0 then []
    else RecordsOf(d, b, ps[..|ps| - 1]) + [Record(ps[|ps| - 1].seqNum, b, Fold(d, ps))]
  }

  // ----- The invariant -----

  /** A shard's lock is held by the one writer inside its section, and free if there is none. */
  ghost predicate LocksOk(s: State)
  {
    && (forall w :: w in s.writers && s.writers[w].Inside() ==>
          Shard(s.writers[w].block) in s.locks && s.locks[Shard(s.writers[w].block)] == w)
    && (forall k :: k in s.locks ==>
          s.locks[k] in s.writers && s.writers[s.locks[k]].Inside() && Shard(s.writers[s.locks[k]].block) == k)
  }

  ghost predicate PatchesOk(vol: Volume, s: State, b: nat)
  {
    && AllOk(vol.blockSize, PatchesOf(s, b)) && InOrder(PatchesOf(s, b))
    && (forall i :: 0 <= i < |PatchesOf(s, b)| ==> PatchesOf(s, b)[i].seqNum <= s.seqNum)
  }

  ghost predicate StoreOk(vol: Volume, s: State, b: nat)
  {
    |Content(vol, s, b)| == vol.blockSize && (b in s.store ==> s.store[b].0 <= s.seqNum)
  }

  /** Writer w has its SeqNum and its bytes, and is about to show them. */
  ghost predicate CommittingOk(vol: Volume, s: State, w: nat)
    requires w in s.writers && s.writers[w].Committing() && vol.Ok() && PatchesOk(vol, s, s.writers[w].block)
  {
    var x := s.writers[w];
    var ps := PatchesOf(s, x.block);
    && |ps| > 0 && ps[|ps| - 1] == Patch(x.stage.seqNum, x.start, x.bytes)
    && x.stage.data == Fold(vol.base(x.block), ps)
    && Content(vol, s, x.block) == Fold(vol.base(x.block), ps[..|ps| - 1])
    && (x.block in s.store ==> s.store[x.block].0 < x.stage.seqNum)
  }

  ghost predicate WriterOk(vol: Volume, s: State, w: nat)
    requires w in s.writers && vol.Ok() && PatchesOk(vol, s, s.writers[w].block) && StoreOk(vol, s, s.writers[w].block)
  {
    var x := s.writers[w];
    && x.start + |x.bytes| <= vol.blockSize
    && (x.stage.Spliced? ==> x.stage.data == FlatDisk.Splice(Content(vol, s, x.block), x.start, x.bytes))
    && (x.Committing() ==> CommittingOk(vol, s, w))
    && (x.stage.Published? || x.stage.Finished? ==> Patch(x.stage.seqNum, x.start, x.bytes) in PatchesOf(s, x.block))
  }

  ghost predicate Quiet(s: State, b: nat)
  {
    forall w :: w in s.writers && s.writers[w].block == b ==> !s.writers[w].Committing()
  }

  ghost predicate Unbuffered(s: State, b: nat)
  {
    exists w :: w in s.writers && s.writers[w].block == b && s.writers[w].stage.Reserved?
  }

  ghost predicate BlockOk(vol: Volume, s: State, b: nat)
    requires vol.Ok() && PatchesOk(vol, s, b)
  {
    var ps := PatchesOf(s, b);
    && (Quiet(s, b) ==> Content(vol, s, b) == Fold(vol.base(b), ps))
    && (!Unbuffered(s, b) ==> OfBlock(s.buffer, b) == RecordsOf(vol.base(b), b, ps))
    && (Unbuffered(s, b) ==> |ps| > 0 && OfBlock(s.buffer, b) == RecordsOf(vol.base(b), b, ps[..|ps| - 1]))
  }

  ghost predicate Inv(vol: Volume, s: State)
    requires vol.Ok()
  {
    && LocksOk(s)
    && (forall b: nat :: PatchesOk(vol, s, b) && StoreOk(vol, s, b))
    && (forall w :: w in s.writers ==> WriterOk(vol, s, w))
    && (forall b: nat :: BlockOk(vol, s, b))
  }

  // ----- Steps outside the commit window -----

  /** Only writer w (and the locks) moved, and it was and is outside its commit window. */
  ghost predicate Unseen(s: State, t: State, w: nat)
  {
    && t.seqNum == s.seqNum && t.store == s.store && t.buffer == s.buffer && t.patches == s.patches
    && w in t.writers && !t.writers[w].Committing()
    && (w in s.writers ==> !s.writers[w].Committing() && t.writers[w].block == s.writers[w].block)
    && (forall x :: x != w ==>
          && (x in t.writers <==> x in s.writers)
          && (x in s.writers ==> t.writers[x] == s.writers[x]))
  }

  lemma UnseenKeeps(vol: Volume, s: State, t: State, w: nat)
    requires vol.Ok() && Inv(vol, s) && Unseen(s, t, w)
    ensures forall b: nat :: PatchesOk(vol, t, b) && StoreOk(vol, t, b)
    ensures forall b: nat :: BlockOk(vol, t, b)
    ensures forall x :: x in t.writers && x != w ==> WriterOk(vol, t, x)
  {
    hide LocksOk, Fold, RecordsOf, OfBlock, InOrder, AllOk, FlatDisk.Splice, Quiet, Unbuffered;
    forall b: nat ensures PatchesOk(vol, t, b) && StoreOk(vol, t, b) {
      assert PatchesOk(vol, s, b) && StoreOk(vol, s, b);
    }
    forall b: nat ensures BlockOk(vol, t, b) {
      assert BlockOk(vol, s, b);
      UnseenBlock(s, t, w, b);
    }
    forall x | x in t.writers && x != w ensures WriterOk(vol, t, x) {
      assert WriterOk(vol, s, x);
    }
  }

  lemma UnseenBlock(s: State, t: State, w: nat, b: nat)
    requires Unseen(s, t, w)
    ensures Quiet(t, b) <==> Quiet(s, b)
    ensures Unbuffered(t, b) <==> Unbuffered(s, b)
  {
    if Quiet(t, b) {
      forall x | x in s.writers && s.writers[x].block == b ensures !s.writers[x].Committing() {
        assert x in t.writers;
      }
    }
    if Unbuffered(s, b) {
      var x :| x in s.writers && s.writers[x].block == b && s.writers[x].stage.Reserved?;
      assert x in t.writers && t.writers[x].block == b && t.writers[x].stage.Reserved?;
    }
    if Unbuffered(t, b) {
      var x :| x in t.writers && t.writers[x].block == b && t.writers[x].stage.Reserved?;
      assert x in s.writers && s.writers[x].block == b && s.writers[x].stage.Reserved?;
    }
  }

  /** Two writers inside the section of one shard are the same writer. */
  lemma OneInside(s: State, w: nat, x: nat)
    requires LocksOk(s) && w in s.writers && x in s.writers && s.writers[w].Inside() && s.writers[x].Inside()
    requires Shard(s.writers[w].block) == Shard(s.writers[x].block)
    ensures w == x
  {
  }

  lemma ArriveInv(vol: Volume, s: State, t: State, step: Step)
    requires vol.Ok() && Inv(vol, s) && NextStep(vol, s, t, step) && step.Arrive?
    ensures Inv(vol, t)
  {
    UnseenKeeps(vol, s, t, step.w);
  }

  lemma AcquireInv(vol: Volume, s: State, t: State, step: Step)
    requires vol.Ok() && Inv(vol, s) && NextStep(vol, s, t, step) && step.Acquire?
    ensures Inv(vol, t)
  {
    UnseenKeeps(vol, s, t, step.w);
    assert WriterOk(vol, s, step.w);
  }

  lemma SpliceInv(vol: Volume, s: State, t: State, step: Step)
    requires vol.Ok() && Inv(vol, s) && NextStep(vol, s, t, step) && step.Splice?
    ensures Inv(vol, t)
  {
    UnseenKeeps(vol, s, t, step.w);
    assert WriterOk(vol, s, step.w);
    var x := s.writers[step.w];
    if !(x.start > 0 || |x.bytes| < vol.blockSize) {
      assert FlatDisk.Splice(Zeros(vol.blockSize), 0, x.bytes) == FlatDisk.Splice(Content(vol, s, x.block), 0, x.bytes);
    }
    assert LocksOk(t);
  }

  lemma LeaveInv(vol: Volume, s: State, t: State, step: Step)
    requires vol.Ok() && Inv(vol, s) && NextStep(vol, s, t, step) && (step.Refuse? || step.Release?)
    ensures Inv(vol, t)
  {
    hide Fold, RecordsOf, OfBlock, InOrder, AllOk, FlatDisk.Splice, Quiet, Unbuffered, BlockOk, LocksOk, Shard;
    UnseenKeeps(vol, s, t, step.w);
    assert WriterOk(vol, s, step.w);
    LeaveLocks(vol, s, t, step);
  }

  lemma LeaveLocks(vol: Volume, s: State, t: State, step: Step)
    requires LocksOk(s) && NextStep(vol, s, t, step) && (step.Refuse? || step.Release?)
    ensures LocksOk(t)
  {
    hide Shard;
    assert Shard(s.writers[step.w].block) in s.locks && s.locks[Shard(s.writers[step.w].block)] == step.w;
    forall x | x in t.writers && t.writers[x].Inside()
      ensures Shard(t.writers[x].block) in t.locks && t.locks[Shard(t.writers[x].block)] == x
    {
      if Shard(t.writers[x].block) == Shard(s.writers[step.w].block) {
        OneInside(s, step.w, x);
      }
    }
  }

  // ----- Steps inside the commit window -----

  /** Writer w moved on within its section, and only its own block is touched. */
  ghost predicate Elsewhere(s: State, t: State, w: nat)
  {
    && w in s.writers && w in t.writers && s.writers[w].Inside() && t.writers[w].Inside()
    && t.writers[w] == s.writers[w].(stage := t.writers[w].stage)
    && s.seqNum <= t.seqNum && t.locks == s.locks
    && (forall x :: x != w ==>
          && (x in t.writers <==> x in s.writers)
          && (x in s.writers ==> t.writers[x] == s.writers[x]))
    && (forall b: nat :: b != s.writers[w].block ==> SameAt(s, t, b))
    && PatchesOf(s, s.writers[w].block) <= PatchesOf(t, s.writers[w].block)
  }

  ghost predicate SameAt(s: State, t: State, b: nat)
  {
    && PatchesOf(t, b) == PatchesOf(s, b) && OfBlock(t.buffer, b) == OfBlock(s.buffer, b)
    && (b in t.store <==> b in s.store) && (b in s.store ==> t.store[b] == s.store[b])
  }

  lemma ElsewhereBlock(vol: Volume, s: State, t: State, w: nat, b: nat)
    requires vol.Ok() && Inv(vol, s) && Elsewhere(s, t, w) && b != s.writers[w].block
    ensures PatchesOk(vol, t, b) && StoreOk(vol, t, b) && BlockOk(vol, t, b)
  {
    assert PatchesOk(vol, s, b) && StoreOk(vol, s, b) && BlockOk(vol, s, b) && SameAt(s, t, b);
    ElsewhereQuiet(s, t, w, b);
  }

  lemma ElsewhereQuiet(s: State, t: State, w: nat, b: nat)
    requires Elsewhere(s, t, w) && b != s.writers[w].block
    ensures Quiet(t, b) <==> Quiet(s, b)
    ensures Unbuffered(t, b) <==> Unbuffered(s, b)
  {
    if Quiet(t, b) {
      forall x | x in s.writers && s.writers[x].block == b ensures !s.writers[x].Committing() {
        assert x in t.writers;
      }
    }
    if Unbuffered(s, b) {
      var x :| x in s.writers && s.writers[x].block == b && s.writers[x].stage.Reserved?;
      assert x in t.writers && t.writers[x].block == b && t.writers[x].stage.Reserved?;
    }
    if Unbuffered(t, b) {
      var x :| x in t.writers && t.writers[x].block == b && t.writers[x].stage.Reserved?;
      assert x in s.writers && s.writers[x].block == b && s.writers[x].stage.Reserved?;
    }
  }

  lemma ElsewhereWriter(vol: Volume, s: State, t: State, w: nat, x: nat)
    requires vol.Ok() && Inv(vol, s) && Elsewhere(s, t, w) && x in s.writers && x != w
    requires PatchesOk(vol, t, s.writers[w].block) && StoreOk(vol, t, s.writers[w].block)
    ensures x in t.writers && PatchesOk(vol, t, t.writers[x].block) && StoreOk(vol, t, t.writers[x].block)
    ensures WriterOk(vol, t, x)
  {
    assert WriterOk(vol, s, x);
    hide Quiet, Unbuffered, BlockOk, InOrder, AllOk;
    var b := s.writers[x].block;
    if b == s.writers[w].block {
      if s.writers[x].Inside() {
        OneInside(s, w, x);
      }
    } else {
      ElsewhereBlock(vol, s, t, w, b);
      assert SameAt(s, t, b);
    }
  }

  /** What is left to show for the block being written. */
  lemma ElsewhereInv(vol: Volume, s: State, t: State, w: nat)
    requires vol.Ok() && Inv(vol, s) && Elsewhere(s, t, w)
    requires PatchesOk(vol, t, s.writers[w].block) && StoreOk(vol, t, s.writers[w].block)
    requires BlockOk(vol, t, s.writers[w].block) && WriterOk(vol, t, w)
    ensures Inv(vol, t)
  {
    hide WriterOk, BlockOk, PatchesOk, StoreOk;
    forall b: nat ensures PatchesOk(vol, t, b) && StoreOk(vol, t, b) && BlockOk(vol, t, b) {
      if b != s.writers[w].block {
        ElsewhereBlock(vol, s, t, w, b);
      }
    }
    forall x | x in t.writers ensures WriterOk(vol, t, x) {
      if x != w {
        ElsewhereWriter(vol, s, t, w, x);
      }
    }
  }

  /** While w is inside, nobody else commits to its block. */
  lemma OnlyWriter(s: State, t: State, w: nat)
    requires LocksOk(s) && Elsewhere(s, t, w)
    ensures Quiet(s, s.writers[w].block) <==> !s.writers[w].Committing()
    ensures Quiet(t, s.writers[w].block) <==> !t.writers[w].Committing()
    ensures Unbuffered(s, s.writers[w].block) <==> s.writers[w].stage.Reserved?
    ensures Unbuffered(t, s.writers[w].block) <==> t.writers[w].stage.Reserved?
  {
    var b := s.writers[w].block;
    forall x | x in s.writers && x != w && s.writers[x].block == b ensures !s.writers[x].Inside() {
      if s.writers[x].Inside() {
        OneInside(s, w, x);
      }
    }
  }

  lemma ReserveElsewhere(vol: Volume, s: State, t: State, step: Step)
    requires NextStep(vol, s, t, step) && step.Reserve?
    ensures Elsewhere(s, t, step.w)
  {
  }

  lemma OfBlockAppend(buffer: seq<Record>, r: Record, b: nat)
    ensures OfBlock(buffer + [r], b) == if r.block == b then OfBlock(buffer, b) + [r] else OfBlock(buffer, b)
  {
    assert (buffer + [r])[..|buffer|] == buffer;
  }

  lemma BufferElsewhere(vol: Volume, s: State, t: State, step: Step)
    requires NextStep(vol, s, t, step) && step.Buffer?
    ensures Elsewhere(s, t, step.w)
  {
    var x := s.writers[step.w];
    forall b: nat | b != x.block ensures SameAt(s, t, b) {
      OfBlockAppend(s.buffer, Record(x.stage.seqNum, x.block, x.stage.data), b);
    }
  }

  lemma PublishElsewhere(vol: Volume, s: State, t: State, step: Step)
    requires NextStep(vol, s, t, step) && step.Publish?
    ensures Elsewhere(s, t, step.w)
  {
  }

  lemma ReservePatches(vol: Volume, s: State, t: State, step: Step)
    requires vol.Ok() && Inv(vol, s) && NextStep(vol, s, t, step) && step.Reserve?
    ensures PatchesOk(vol, t, s.writers[step.w].block) && StoreOk(vol, t, s.writers[step.w].block)
  {
    var x := s.writers[step.w];
    assert WriterOk(vol, s, step.w) && PatchesOk(vol, s, x.block) && StoreOk(vol, s, x.block);
  }

  lemma ReserveInv(vol: Volume, s: State, t: State, step: Step)
    requires vol.Ok() && Inv(vol, s) && NextStep(vol, s, t, step) && step.Reserve?
    ensures Inv(vol, t)
  {
    hide Elsewhere, Quiet, Unbuffered, PatchesOk, StoreOk, BlockOk, WriterOk, LocksOk;
    ReservePatches(vol, s, t, step);
    ReserveElsewhere(vol, s, t, step);
    OnlyWriter(s, t, step.w);
    assert WriterOk(vol, s, step.w) && BlockOk(vol, s, s.writers[step.w].block);
    ReserveIs(vol, s, t, step);
    ReserveBlock(vol, s, t, step.w);
    ReserveWriter(vol, s, t, step.w);
    ElsewhereInv(vol, s, t, step.w);
  }

  lemma FoldOne(d: seq<byte>, ps: seq<Patch>, p: Patch)
    requires AllOk(|d|, ps) && AllOk(|d|, ps + [p])
    ensures p.start + |p.bytes| <= |d| && Fold(d, ps + [p]) == FlatDisk.Splice(Fold(d, ps), p.start, p.bytes)
  {
    assert (ps + [p])[|ps|] == p && (ps + [p])[..|ps|] == ps;
  }

  ghost predicate ReserveEffect(s: State, t: State, w: nat)
  {
    && w in s.writers && s.writers[w].stage.Spliced? && w in t.writers
    && t.buffer == s.buffer && t.store == s.store && t.seqNum == s.seqNum + 1
    && var x := s.writers[w];
       && t.writers[w] == x.(stage := Reserved(x.stage.data, s.seqNum + 1))
       && PatchesOf(t, x.block) == PatchesOf(s, x.block) + [Patch(s.seqNum + 1, x.start, x.bytes)]
  }

  lemma ReserveIs(vol: Volume, s: State, t: State, step: Step)
    requires NextStep(vol, s, t, step) && step.Reserve?
    ensures ReserveEffect(s, t, step.w)
  {
  }

  lemma ReserveBlock(vol: Volume, s: State, t: State, w: nat)
    requires vol.Ok() && ReserveEffect(s, t, w)
    requires var b := s.writers[w].block;
             && PatchesOk(vol, s, b) && BlockOk(vol, s, b) && PatchesOk(vol, t, b)
             && !Unbuffered(s, b) && !Quiet(t, b) && Unbuffered(t, b)
    ensures BlockOk(vol, t, s.writers[w].block)
  {
    hide Quiet, Unbuffered, InOrder, AllOk, Fold, RecordsOf, OfBlock, PatchesOf;
    var x := s.writers[w];
    var ps, p := PatchesOf(s, x.block), Patch(s.seqNum + 1, x.start, x.bytes);
    assert (ps + [p])[..|ps|] == ps;
  }

  lemma ReserveWriter(vol: Volume, s: State, t: State, w: nat)
    requires vol.Ok() && ReserveEffect(s, t, w)
    requires var b := s.writers[w].block;
             && PatchesOk(vol, s, b) && StoreOk(vol, s, b) && BlockOk(vol, s, b) && WriterOk(vol, s, w)
             && PatchesOk(vol, t, b) && StoreOk(vol, t, b) && Quiet(s, b)
    ensures WriterOk(vol, t, w)
  {
    hide Quiet, Unbuffered, InOrder, AllOk, Fold, RecordsOf, OfBlock, FlatDisk.Splice, PatchesOf;
    var x := s.writers[w];
    var ps, p := PatchesOf(s, x.block), Patch(s.seqNum + 1, x.start, x.bytes);
    assert (ps + [p])[..|ps|] == ps && (ps + [p])[|ps|] == p;
    FoldOne(vol.base(x.block), ps, p);
    assert Content(vol, s, x.block) == Fold(vol.base(x.block), ps);
    hide BlockOk;
    assert Content(vol, t, x.block) == Content(vol, s, x.block);
  }

  lemma BufferInv(vol: Volume, s: State, t: State, step: Step)
    requires vol.Ok() && Inv(vol, s) && NextStep(vol, s, t, step) && step.Buffer?
    ensures Inv(vol, t)
  {
    hide Elsewhere, LocksOk, Quiet, Unbuffered;
    var w := step.w;
    var x := s.writers[w];
    var b := x.block;
    assert WriterOk(vol, s, w) && BlockOk(vol, s, b) && PatchesOk(vol, s, b) && StoreOk(vol, s, b);
    OfBlockAppend(s.buffer, Record(x.stage.seqNum, b, x.stage.data), b);
    BufferElsewhere(vol, s, t, step);
    OnlyWriter(s, t, w);
    ElsewhereInv(vol, s, t, w);
  }

  lemma PublishInv(vol: Volume, s: State, t: State, step: Step)
    requires vol.Ok() && Inv(vol, s) && NextStep(vol, s, t, step) && step.Publish?
    ensures Inv(vol, t)
  {
    hide Elsewhere, LocksOk, Quiet, Unbuffered;
    var w := step.w;
    var b := s.writers[w].block;
    assert WriterOk(vol, s, w) && BlockOk(vol, s, b) && PatchesOk(vol, s, b) && StoreOk(vol, s, b);
    PublishElsewhere(vol, s, t, step);
    OnlyWriter(s, t, w);
    var ps := PatchesOf(s, b);
    assert ps[|ps| - 1] in ps;
    ElsewhereInv(vol, s, t, w);
  }

  lemma NextInv(vol: Volume, s: State, t: State, step: Step)
    requires vol.Ok() && Inv(vol, s) && NextStep(vol, s, t, step)
    ensures Inv(vol, t)
  {
    hide Inv;
    match step
    case Arrive(_, _, _, _) => ArriveInv(vol, s, t, step);
    case Acquire(_) => AcquireInv(vol, s, t, step);
    case Splice(_) => SpliceInv(vol, s, t, step);
    case Reserve(_) => ReserveInv(vol, s, t, step);
    case Buffer(_) => BufferInv(vol, s, t, step);
    case Publish(_) => PublishInv(vol, s, t, step);
    case _ => LeaveInv(vol, s, t, step);
  }

  // ----- What the steps alone say -----

  /** Block, start and bytes of the write a writer arrived with. */
  ghost function Arrived(past: seq<Step>, w: nat): Option<(nat, nat, seq<byte>)>
  {
    if |past| == 0 then None
    else
      match past[|past| - 1]
      case Arrive(x, block, start, bytes) =>
        if x == w then Some((block, start, bytes)) else Arrived(past[..|past| - 1], w)
      case _ => Arrived(past[..|past| - 1], w)
  }

  ghost function Reserves(past: seq<Step>): nat
  {
    if |past| == 0 then 0
    else Reserves(past[..|past| - 1]) + if past[|past| - 1].Reserve? then 1 else 0
  }

  /** The writes to the block that were given a SeqNum, in that order. */
  ghost function PatchesAfter(past: seq<Step>, b: nat): seq<Patch>
  {
    if |past| == 0 then []
    else
      var before := past[..|past| - 1];
      match past[|past| - 1]
      case Reserve(w) =>
        (match Arrived(before, w)
         case None => PatchesAfter(before, b)
         case Some((block, start, bytes)) =>
           PatchesAfter(before, b) + if block == b then [Patch(Reserves(before) + 1, start, bytes)] else [])
      case _ => PatchesAfter(before, b)
  }

  /** No writer of the block is between its SeqNum and its publication. */
  ghost predicate Settled(past: seq<Step>, b: nat)
  {
    forall w :: Reserve(w) in past && Publish(w) !in past && Arrived(past, w).Some? ==> Arrived(past, w).value.0 != b
  }

  ghost predicate WriterIs(s: State, past: seq<Step>, w: nat)
  {
    && (Arrived(past, w).Some? <==> w in s.writers)
    && (w in s.writers ==> Arrived(past, w).value == (s.writers[w].block, s.writers[w].start, s.writers[w].bytes))
    && (w in s.writers && s.writers[w].Committing() <==> Reserve(w) in past && Publish(w) !in past)
    && (Publish(w) in past ==> w in s.writers && (s.writers[w].stage.Published? || s.writers[w].stage.Finished?))
    && (Reserve(w) !in past ==> Publish(w) !in past)
  }

  ghost predicate PatchesAre(s: State, past: seq<Step>)
  {
    s.seqNum == Reserves(past) && forall b: nat :: PatchesOf(s, b) == PatchesAfter(past, b)
  }

  lemma Unsnoc(past: seq<Step>, step: Step)
    ensures (past + [step])[..|past|] == past && (past + [step])[|past|] == step
    ensures forall other :: other in past + [step] <==> other in past || other == step
  {
  }

  lemma WriterStep(vol: Volume, s: State, t: State, past: seq<Step>, step: Step, w: nat)
    requires WriterIs(s, past, w) && NextStep(vol, s, t, step)
    ensures WriterIs(t, past + [step], w)
  {
    hide Rebuilt, Content, PatchesOf, Shard;
    Unsnoc(past, step);
  }

  lemma PatchesStep(vol: Volume, s: State, t: State, past: seq<Step>, step: Step)
    requires PatchesAre(s, past) && (forall w :: WriterIs(s, past, w)) && NextStep(vol, s, t, step)
    ensures PatchesAre(t, past + [step])
  {
    assert WriterIs(s, past, step.w);
    hide WriterIs, PatchesOf, PatchesAfter, Rebuilt, Content, Shard, At;
    Unsnoc(past, step);
    CountStep(vol, s, t, past, step);
    forall b: nat ensures PatchesOf(t, b) == PatchesAfter(past + [step], b) {
      assert PatchesOf(s, b) == PatchesAfter(past, b);
      PatchStep(vol, s, t, past, step, b);
    }
  }

  lemma CountStep(vol: Volume, s: State, t: State, past: seq<Step>, step: Step)
    requires s.seqNum == Reserves(past) && NextStep(vol, s, t, step)
    ensures t.seqNum == Reserves(past + [step])
  {
    hide PatchesOf, Rebuilt, Content, Shard;
    Unsnoc(past, step);
  }

  lemma PatchStep(vol: Volume, s: State, t: State, past: seq<Step>, step: Step, b: nat)
    requires s.seqNum == Reserves(past) && PatchesOf(s, b) == PatchesAfter(past, b)
    requires WriterIs(s, past, step.w) && NextStep(vol, s, t, step)
    ensures PatchesOf(t, b) == PatchesAfter(past + [step], b)
  {
    hide Rebuilt, Content, Shard, Arrived, Reserves;
    Unsnoc(past, step);
  }

  // ----- Whole runs -----

  ghost predicate Follows(vol: Volume, run: seq<State>, steps: seq<Step>)
  {
    && |run| == |steps| + 1
    && forall i :: 0 <= i < |steps| ==> NextStep(vol, run[i], run[i + 1], steps[i])
  }

  lemma {:induction false} RunInv(vol: Volume, run: seq<State>, steps: seq<Step>, i: nat)
    requires vol.Ok() && Follows(vol, run, steps) && Init(run[0]) && i < |run|
    ensures Inv(vol, run[i])
  {
    if i == 0 {
      InitInv(vol, run[0]);
    } else {
      RunInv(vol, run, steps, i - 1);
      NextInv(vol, run[i - 1], run[i], steps[i - 1]);
    }
  }

  lemma InitInv(vol: Volume, s: State)
    requires vol.Ok() && Init(s)
    ensures Inv(vol, s)
  {
  }

  lemma {:induction false} HistoryIs(vol: Volume, run: seq<State>, steps: seq<Step>, i: nat)
    requires Follows(vol, run, steps) && Init(run[0]) && i < |run|
    ensures PatchesAre(run[i], steps[..i]) && forall w :: WriterIs(run[i], steps[..i], w)
  {
    hide NextStep, WriterIs, PatchesAre;
    if i == 0 {
      HistoryStarts(run[0]);
    } else {
      HistoryIs(vol, run, steps, i - 1);
      var past, step := steps[..i - 1], steps[i - 1];
      assert steps[..i] == past + [step];
      PatchesStep(vol, run[i - 1], run[i], past, step);
      forall w ensures WriterIs(run[i], steps[..i], w) {
        WriterStep(vol, run[i - 1], run[i], past, step, w);
      }
    }
  }

  lemma HistoryStarts(s: State)
    requires Init(s)
    ensures PatchesAre(s, []) && forall w :: WriterIs(s, [], w)
  {
  }

  /** The byte the last patch over this position put there. */
  ghost function LastByte(d: seq<byte>, ps: seq<Patch>, p: nat): byte
    requires p < |d|
  {
    if |ps| == 0 then d[p]
    else
      var last := ps[|ps| - 1];
      if last.start <= p < last.start + |last.bytes| then last.bytes[p - last.start]
      else LastByte(d, ps[..|ps| - 1], p)
  }

  lemma {:induction false} FoldByte(d: seq<byte>, ps: seq<Patch>, p: nat)
    requires AllOk(|d|, ps) && p < |d|
    ensures Fold(d, ps)[p] == LastByte(d, ps, p)
  {
    if |ps| > 0 {
      var n := |ps| - 1;
      FoldByte(d, ps[..n], p);
      SpliceStores(Fold(d, ps[..n]), ps[n].start, ps[n].bytes);
    }
  }

  /** Every byte of the block is the one the last patch over it put there. */
  ghost predicate Holds(d: seq<byte>, got: seq<byte>, ps: seq<Patch>)
  {
    |got| == |d| && forall p :: 0 <= p < |d| ==> got[p] == LastByte(d, ps, p)
  }

  lemma FoldHolds(d: seq<byte>, ps: seq<Patch>)
    requires AllOk(|d|, ps)
    ensures Holds(d, Fold(d, ps), ps)
  {
    forall p | 0 <= p < |d| ensures Fold(d, ps)[p] == LastByte(d, ps, p) {
      FoldByte(d, ps, p);
    }
  }

  lemma SettledQuiet(vol: Volume, run: seq<State>, steps: seq<Step>, i: nat, b: nat)
    requires Follows(vol, run, steps) && Init(run[0]) && i < |run|
    ensures Settled(steps[..i], b) <==> Quiet(run[i], b)
  {
    HistoryIs(vol, run, steps, i);
    hide Arrived;
    forall w ensures w in run[i].writers && run[i].writers[w].block == b && run[i].writers[w].Committing()
                <==> Reserve(w) in steps[..i] && Publish(w) !in steps[..i] && Arrived(steps[..i], w).Some?
                     && Arrived(steps[..i], w).value.0 == b
    {
      assert WriterIs(run[i], steps[..i], w);
    }
  }

  /**
   No update is lost: whenever no writer of a block is between taking its SeqNum and
   publishing, every byte of the block is the one that the last write over it, in
   SeqNum order, arrived with. Every write that reached its end is among those.
   */
  lemma NoLostUpdate(vol: Volume, run: seq<State>, steps: seq<Step>, i: nat, b: nat)
    requires vol.Ok() && Follows(vol, run, steps) && Init(run[0]) && i < |run| && Settled(steps[..i], b)
    ensures var ps := PatchesAfter(steps[..i], b);
            && InOrder(ps) && Holds(vol.base(b), Content(vol, run[i], b), ps)
            && forall w :: w in run[i].writers && run[i].writers[w].block == b && run[i].writers[w].stage.Finished? ==>
                 Patch(run[i].writers[w].stage.seqNum, run[i].writers[w].start, run[i].writers[w].bytes) in ps
  {
    RunInv(vol, run, steps, i);
    HistoryIs(vol, run, steps, i);
    SettledQuiet(vol, run, steps, i, b);
    var s := run[i];
    assert PatchesOf(s, b) == PatchesAfter(steps[..i], b);
    assert PatchesOk(vol, s, b) && BlockOk(vol, s, b);
    FoldHolds(vol.base(b), PatchesOf(s, b));
    forall w | w in s.writers ensures WriterOk(vol, s, w) {
    }
  }

  lemma SeenPrefix(vol: Volume, s: State, b: nat)
    requires vol.Ok() && Inv(vol, s)
    ensures var ps := PatchesOf(s, b);
            && AllOk(vol.blockSize, ps)
            && exists n :: 0 <= n <= |ps| && n + 1 >= |ps| && Content(vol, s, b) == Fold(vol.base(b), ps[..n])
  {
    hide LocksOk, InOrder, RecordsOf, OfBlock, FlatDisk.Splice, Fold, Unbuffered;
    var ps := PatchesOf(s, b);
    assert PatchesOk(vol, s, b) && BlockOk(vol, s, b);
    if Quiet(s, b) {
      assert ps[..|ps|] == ps;
    } else {
      var w :| w in s.writers && s.writers[w].block == b && s.writers[w].Committing();
      assert WriterOk(vol, s, w) && CommittingOk(vol, s, w);
    }
  }

  /** A reader at any moment sees all patches of a block but at most the one being published. */
  lemma ReaderSeesPrefix(vol: Volume, run: seq<State>, steps: seq<Step>, i: nat, b: nat)
    requires vol.Ok() && Follows(vol, run, steps) && Init(run[0]) && i < |run|
    ensures var ps := PatchesAfter(steps[..i], b);
            exists n :: 0 <= n <= |ps| && n + 1 >= |ps| && Holds(vol.base(b), Content(vol, run[i], b), ps[..n])
  {
    hide Inv, NextStep, Holds, Fold, PatchesAfter, PatchesOf, Content, WriterIs;
    RunInv(vol, run, steps, i);
    HistoryIs(vol, run, steps, i);
    SeenPrefix(vol, run[i], b);
    var ps := PatchesOf(run[i], b);
    assert ps == PatchesAfter(steps[..i], b);
    var n :| 0 <= n <= |ps| && n + 1 >= |ps| && Content(vol, run[i], b) == Fold(vol.base(b), ps[..n]);
    FoldHolds(vol.base(b), ps[..n]);
  }

  /** The records are one per patch, each with its SeqNum and the block as of it. */
  ghost predicate RecordsHold(d: seq<byte>, b: nat, records: seq<Record>, ps: seq<Patch>)
  {
    |records| <= |ps| && forall i :: 0 <= i < |records| ==> RecordHolds(d, b, records[i], ps, i)
  }

  ghost predicate RecordHolds(d: seq<byte>, b: nat, r: Record, ps: seq<Patch>, i: nat)
    requires i < |ps|
  {
    r.seqNum == ps[i].seqNum && r.block == b && Holds(d, r.data, ps[..i + 1])
  }

  lemma {:induction false} RecordsOfHold(d: seq<byte>, b: nat, ps: seq<Patch>)
    requires AllOk(|d|, ps)
    ensures RecordsHold(d, b, RecordsOf(d, b, ps), ps)
  {
    if |ps| > 0 {
      var n := |ps| - 1;
      RecordsOfHold(d, b, ps[..n]);
      var before, last := RecordsOf(d, b, ps[..n]), Record(ps[n].seqNum, b, Fold(d, ps));
      RecordsHoldOn(d, b, before, ps, n);
      FoldHolds(d, ps);
      assert ps[..n + 1] == ps;
      assert RecordHolds(d, b, last, ps, n);
      forall i | 0 <= i < |ps| ensures RecordHolds(d, b, RecordsOf(d, b, ps)[i], ps, i) {
        if i < n {
          assert RecordHolds(d, b, before[i], ps, i);
        }
      }
    }
  }

  lemma RecordsHoldOn(d: seq<byte>, b: nat, records: seq<Record>, ps: seq<Patch>, n: nat)
    requires n <= |ps| && RecordsHold(d, b, records, ps[..n])
    ensures RecordsHold(d, b, records, ps)
  {
    forall i | 0 <= i < |records| ensures RecordHolds(d, b, records[i], ps, i) {
      assert RecordHolds(d, b, records[i], ps[..n], i);
      assert ps[..n][..i + 1] == ps[..i + 1];
    }
  }

  /** The buffered records of a block are its writes' results, in SeqNum order, but for at most the last. */
  lemma BufferInOrder(vol: Volume, run: seq<State>, steps: seq<Step>, i: nat, b: nat)
    requires vol.Ok() && Follows(vol, run, steps) && Init(run[0]) && i < |run|
    ensures var ps, got := PatchesAfter(steps[..i], b), OfBlock(run[i].buffer, b);
            && InOrder(ps) && RecordsHold(vol.base(b), b, got, ps) && |got| + 1 >= |ps|
            && (!Unbuffered(run[i], b) ==> |got| == |ps|)
  {
    RunInv(vol, run, steps, i);
    HistoryIs(vol, run, steps, i);
    var ps := PatchesOf(run[i], b);
    assert PatchesOk(vol, run[i], b) && BlockOk(vol, run[i], b);
    if Unbuffered(run[i], b) {
      RecordsOfHold(vol.base(b), b, ps[..|ps| - 1]);
      RecordsHoldOn(vol.base(b), b, OfBlock(run[i].buffer, b), ps, |ps| - 1);
    } else {
      RecordsOfHold(vol.base(b), b, ps);
    }
  }

  /** A shard's lock is free exactly when no writer is inside its section. */
  lemma LockFree(vol: Volume, run: seq<State>, steps: seq<Step>, i: nat, b: nat)
    requires vol.Ok() && Follows(vol, run, steps) && Init(run[0]) && i < |run|
    ensures Shard(b) !in run[i].locks
       <==> forall w :: w in run[i].writers && run[i].writers[w].Inside() ==> Shard(run[i].writers[w].block) != Shard(b)
  {
    RunInv(vol, run, steps, i);
  }

  /** A writer that finds its shard free and is not disturbed leaves the block with its bytes stored. */
  lemma LoneWrite(vol: Volume, s: State, w: nat, b: nat, start: nat, bytes: seq<byte>)
    returns (run: seq<State>, steps: seq<Step>)
    requires vol.Ok() && Inv(vol, s) && w !in s.writers && Shard(b) !in s.locks
    requires 0 < |bytes| && start + |bytes| <= vol.blockSize
    ensures Follows(vol, run, steps) && run[0] == s
    ensures steps == [Arrive(w, b, start, bytes), Acquire(w), Splice(w), Reserve(w), Buffer(w), Publish(w), Release(w)]
    ensures Stores(Content(vol, s, b), Content(vol, run[7], b), start, bytes) && run[7].locks == s.locks
  {
    hide NextStep, Stores, Rebuilt;
    var first, s3 := LoneStart(vol, s, w, b, start, bytes);
    var rest, more := LoneCommit(vol, s3, w);
    run, steps := first + rest, [Arrive(w, b, start, bytes), Acquire(w), Splice(w)] + more;
    assert s3.locks - {Shard(b)} == s.locks;
  }

  lemma LoneStart(vol: Volume, s: State, w: nat, b: nat, start: nat, bytes: seq<byte>)
    returns (first: seq<State>, t: State)
    requires vol.Ok() && Inv(vol, s) && w !in s.writers && Shard(b) !in s.locks
    requires 0 < |bytes| && start + |bytes| <= vol.blockSize
    ensures |first| == 3 && first[0] == s && NextStep(vol, s, first[1], Arrive(w, b, start, bytes))
    ensures NextStep(vol, first[1], first[2], Acquire(w)) && NextStep(vol, first[2], t, Splice(w))
    ensures t.store == s.store && t.seqNum == s.seqNum && t.locks == s.locks[Shard(b) := w]
    ensures b in s.store ==> s.store[b].0 <= s.seqNum
    ensures w in t.writers && t.writers[w].block == b && t.writers[w].stage.Spliced?
    ensures Stores(Content(vol, s, b), t.writers[w].stage.data, start, bytes)
  {
    assert StoreOk(vol, s, b);
    hide Inv, Shard, Stores;
    var s1 := s.(writers := s.writers[w := Writer(b, start, bytes, Waiting)]);
    var s2 := At(s1, w, Locked).(locks := s1.locks[Shard(b) := w]);
    RebuiltStores(vol, s2, s2.writers[w]);
    t := At(s2, w, Spliced(Rebuilt(vol, s2, s2.writers[w])));
    first := [s, s1, s2];
  }

  lemma LoneCommit(vol: Volume, s: State, w: nat) returns (run: seq<State>, steps: seq<Step>)
    requires w in s.writers && s.writers[w].stage.Spliced?
    requires s.writers[w].block in s.store ==> s.store[s.writers[w].block].0 <= s.seqNum
    ensures Follows(vol, run, steps) && run[0] == s
    ensures steps == [Reserve(w), Buffer(w), Publish(w), Release(w)]
    ensures var x := s.writers[w];
            Content(vol, run[4], x.block) == x.stage.data && run[4].locks == s.locks - {Shard(x.block)}
  {
    var b, data := s.writers[w].block, s.writers[w].stage.data;
    var patches := s.patches[b := PatchesOf(s, b) + [Patch(s.seqNum + 1, s.writers[w].start, s.writers[w].bytes)]];
    var s1 := At(s, w, Reserved(data, s.seqNum + 1)).(seqNum := s.seqNum + 1, patches := patches);
    var s2 := At(s1, w, Buffered(data, s.seqNum + 1)).(buffer := s.buffer + [Record(s.seqNum + 1, b, data)]);
    var s3 := At(s2, w, Published(s.seqNum + 1)).(store := s.store[b := (s.seqNum + 1, data)]);
    var s4 := At(s3, w, Finished(s.seqNum + 1)).(locks := s.locks - {Shard(b)});
    run, steps := [s, s1, s2, s3, s4], [Reserve(w), Buffer(w), Publish(w), Release(w)];
    assert NextStep(vol, s, s1, Reserve(w)) && NextStep(vol, s1, s2, Buffer(w));
    assert NextStep(vol, s2, s3, Publish(w)) && NextStep(vol, s3, s4, Release(w));
  }

  lemma RebuiltStores(vol: Volume, s: State, x: Writer)
    requires x.start + |x.bytes| <= vol.blockSize == |Content(vol, s, x.block)|
    ensures Stores(Content(vol, s, x.block), Rebuilt(vol, s, x), x.start, x.bytes)
  {
  }
}
