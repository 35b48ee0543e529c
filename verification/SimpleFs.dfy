/** A toy file system on block numbers: a free list, a used set and one block list per file. */
module SimpleFs {
  import opened Bytes
  import opened Extents

  datatype File = File(size: nat, blocks: seq<nat>)

  ghost predicate NoDup(s: seq<nat>)
  {
    forall i, j :: 0 <= i < j < |s| ==> s[i] != s[j]
  }

  function Elems(s: seq<nat>): (e: set<nat>)
    ensures forall b :: b in e <==> b in s
  {
    set i | 0 <= i < |s| :: s[i]
  }

  /** Free list and used set split the blocks of the volume between them. */
  ghost predicate Partition(free: seq<nat>, used: set<nat>, size: nat)
  {
    NoDup(free) && Elems(free) !! used && Elems(free) + used == Span(0, size)
  }

  ghost predicate Owns(files: map<string, File>, path: string, b: nat)
  {
    path in files && b in files[path].blocks
  }

  /** Every used block belongs to exactly one file, once. */
  ghost predicate FilesOwn(files: map<string, File>, used: set<nat>)
  {
    && (forall p :: p in files ==> NoDup(files[p].blocks))
    && (forall p, b :: Owns(files, p, b) ==> b in used)
    && (forall b :: b in used ==> exists p :: Owns(files, p, b))
    && (forall p, q, b :: Owns(files, p, b) && Owns(files, q, b) ==> p == q)
  }

  ghost predicate HoldNothing(files: map<string, File>)
  {
    forall p :: p in files ==> files[p].blocks == []
  }

  /** Blocks needed for a file, in 64-bit arithmetic. */
  function BlocksFor(dataLen: nat, blockSize: nat): nat
    requires blockSize > 0
  {
    (dataLen + blockSize - 1) % Capacity(8) / blockSize
  }

  /** The blocks cover the file exactly when the rounding did not wrap. */
  lemma BlocksForCovers(dataLen: nat, blockSize: nat)
    requires 0 < blockSize < Capacity(8) && dataLen < Capacity(8)
    ensures Times(BlocksFor(dataLen, blockSize), blockSize) >= dataLen <==> dataLen + blockSize - 1 < Capacity(8)
    ensures Times(BlocksFor(dataLen, blockSize), blockSize) < dataLen + blockSize
  {
    var sum := dataLen + blockSize - 1;
    var m := sum % Capacity(8);
    assert m == if sum < Capacity(8) then sum else sum - Capacity(8) by {
      DivTimes(sum, Capacity(8));
      SmallMod(sum, Capacity(8));
    }
    DivTimes(m, blockSize);
  }

  lemma SmallMod(x: nat, m: nat)
    requires m > 0 && x < m + m
    ensures x % m == if x < m then x else x - m
  {
    DivTimes(x, m);
    assert Times(1, m) == m;
    if x < m {
      TimesUnique(x / m, x % m, 0, x, m);
    } else {
      TimesUnique(x / m, x % m, 1, x - m, m);
    }
  }

  // ----- Moving blocks between the lists -----

  lemma ElemsConcat(a: seq<nat>, c: seq<nat>)
    ensures Elems(a + c) == Elems(a) + Elems(c)
  {
  }

  lemma NoDupConcat(a: seq<nat>, c: seq<nat>)
    ensures NoDup(a + c) <==> NoDup(a) && NoDup(c) && Elems(a) !! Elems(c)
  {
    var s := a + c;
    if NoDup(s) {
      assert forall i :: 0 <= i < |a| ==> s[i] == a[i];
      assert forall j :: 0 <= j < |c| ==> s[|a| + j] == c[j];
    }
    if NoDup(a) && NoDup(c) && Elems(a) !! Elems(c) {
      forall i, j | 0 <= i < j < |s| ensures s[i] != s[j] {
        if i < |a| <= j {
          assert s[i] in Elems(a) && s[j] in Elems(c);
        }
      }
    }
  }

  lemma TakePartition(free: seq<nat>, used: set<nat>, size: nat, n: nat)
    requires Partition(free, used, size) && n <= |free|
    ensures Partition(free[n..], used + Elems(free[..n]), size) && NoDup(free[..n]) && Elems(free[..n]) !! used
  {
    assert free == free[..n] + free[n..];
    NoDupConcat(free[..n], free[n..]);
    ElemsConcat(free[..n], free[n..]);
  }

  /** Giving blocks back keeps the partition exactly when they were used and are listed once. */
  lemma GivePartition(free: seq<nat>, used: set<nat>, size: nat, blocks: seq<nat>)
    requires Partition(free, used, size)
    ensures Partition(free + blocks, used - Elems(blocks), size) <==> NoDup(blocks) && Elems(blocks) <= used
  {
    NoDupConcat(free, blocks);
    ElemsConcat(free, blocks);
    if Partition(free + blocks, used - Elems(blocks), size) {
      forall b | b in Elems(blocks) ensures b in used {
        assert b in Elems(free) + Elems(blocks);
      }
    }
  }

  lemma DropOwner(files: map<string, File>, used: set<nat>, path: string)
    requires FilesOwn(files, used) && path in files
    ensures FilesOwn(files - {path}, used - Elems(files[path].blocks))
    ensures NoDup(files[path].blocks) && Elems(files[path].blocks) <= used
  {
    var rest, left := files - {path}, used - Elems(files[path].blocks);
    forall b | b in Elems(files[path].blocks) ensures b in used && Owns(files, path, b) {
      assert Owns(files, path, b);
    }
    forall p, b | Owns(rest, p, b) ensures b in left && Owns(files, p, b) {
      assert Owns(files, p, b);
    }
    forall b | b in left ensures exists p :: Owns(rest, p, b) {
      var p :| Owns(files, p, b);
      assert Owns(rest, p, b);
    }
  }

  lemma AddOwner(files: map<string, File>, used: set<nat>, path: string, f: File)
    requires FilesOwn(files, used) && path !in files && NoDup(f.blocks) && Elems(f.blocks) !! used
    ensures FilesOwn(files[path := f], used + Elems(f.blocks))
  {
    var all, now := files[path := f], used + Elems(f.blocks);
    forall p, b | Owns(all, p, b) ensures b in now && (p != path ==> Owns(files, p, b)) {
      assert p != path ==> Owns(files, p, b);
    }
    forall b | b in now ensures exists p :: Owns(all, p, b) {
      if b in used {
        var p :| Owns(files, p, b);
        assert Owns(all, p, b);
      } else {
        assert Owns(all, path, b);
      }
    }
  }

  /** No block is lost or gained: free and used together are the whole volume. */
  lemma Conservation(free: seq<nat>, used: set<nat>, size: nat)
    requires Partition(free, used, size)
    ensures |free| + |used| == size
  {
    ElemsSize(free);
    SpanSize(0, size);
    assert |Elems(free) + used| == |Elems(free)| + |used|;
  }

  lemma {:induction false} ElemsSize(s: seq<nat>)
    requires NoDup(s)
    ensures |Elems(s)| == |s|
  {
    if |s| > 0 {
      var n := |s| - 1;
      ElemsSize(s[..n]);
      assert s == s[..n] + [s[n]];
      ElemsConcat(s[..n], [s[n]]);
      assert Elems([s[n]]) == {s[n]};
      assert s[n] !in s[..n];
    }
  }

  class SimpleFS {
    var free: seq<nat>
    var used: set<nat>
    var size: nat
    var name: string
    var files: map<string, File>
    const blockSize: nat

    ghost predicate Valid()
      reads this
    {
      blockSize > 0 && Partition(free, used, size) && FilesOwn(files, used)
    }

    constructor (blockSize: nat)
      requires blockSize > 0
      ensures Valid() && size == 0 && free == [] && files == map[] && this.blockSize == blockSize
    {
      this.blockSize := blockSize;
      free, used, size, name, files := [], {}, 0, "", map[];
    }

    /** Lists all blocks of the volume as free. */
    method FreeAll(total: nat)
      modifies this`free, this`used, this`size
      ensures Partition(free, used, total) && used == {} && size == total && |free| == total
      ensures forall i :: 0 <= i < total ==> free[i] == i
    {
      size, used := total, {};
      var list := [];
      for i := 0 to total
        invariant |list| == i && forall k :: 0 <= k < i ==> list[k] == k
      {
        list := list + [i];
      }
      free := list;
      forall b: nat ensures b in Elems(free) <==> b in Span(0, total) {
        if b < total {
          assert free[b] == b;
        }
      }
      assert Elems(free) + used == Span(0, total);
    }

    /** Existing files keep their lists: the result is consistent exactly when they hold no blocks. */
    method CreateVolume(volume: string, bytes: nat) returns (ok: bool)
      requires blockSize > 0
      modifies this`free, this`used, this`size, this`name
      ensures ok <==> bytes % blockSize == 0
      ensures !ok ==> free == old(free) && used == old(used) && size == old(size) && name == old(name)
      ensures ok ==> size == bytes / blockSize && used == {} && name == volume && |free| == size
      ensures ok ==> (Valid() <==> HoldNothing(files))
    {
      if bytes % blockSize != 0 {
        return false;
      }
      name := volume;
      FreeAll(bytes / blockSize);
      ok := true;
      NothingOwned(files);
    }

    method FormatVolume()
      requires Valid()
      modifies this`free, this`used, this`size, this`files
      ensures Valid() && size == old(size) && files == map[] && used == {} && |free| == size
    {
      FreeAll(size);
      files := map[];
    }

    /** Takes n blocks off the front of the free list. */
    method AllocateBlocks(n: nat) returns (r: Result<seq<nat>>)
      requires Partition(free, used, size)
      modifies this`free, this`used
      ensures Partition(free, used, size)
      ensures r.Ok? <==> n <= |old(free)|
      ensures r.Ok? ==> r.value == old(free)[..n] && free == old(free)[n..] && used == old(used) + Elems(r.value)
      ensures r.Ok? ==> NoDup(r.value) && Elems(r.value) !! old(used)
      ensures r.Err? ==> free == old(free) && used == old(used)
    {
      if |free| < n {
        return Err("not enough free blocks");
      }
      TakePartition(free, used, size, n);
      var blocks: seq<nat>, taken := [], used;
      for i := 0 to n
        invariant free == old(free) && used == old(used)
        invariant blocks == free[..i] && taken == used + Elems(blocks)
      {
        ElemsConcat(blocks, [free[i]]);
        assert Elems([free[i]]) == {free[i]};
        blocks, taken := blocks + [free[i]], taken + {free[i]};
      }
      free, used := free[n..], taken;
      r := Ok(blocks);
    }

    /** Puts blocks back, in order, at the end of the free list. */
    method FreeBlocks(blocks: seq<nat>)
      modifies this`free, this`used
      ensures free == old(free) + blocks && used == old(used) - Elems(blocks)
    {
      var list, left := free, used;
      for i := 0 to |blocks|
        invariant free == old(free) && used == old(used)
        invariant list == free + blocks[..i] && left == used - Elems(blocks[..i])
      {
        assert blocks[..i + 1] == blocks[..i] + [blocks[i]];
        ElemsConcat(blocks[..i], [blocks[i]]);
        assert Elems([blocks[i]]) == {blocks[i]};
        list, left := list + [blocks[i]], left - {blocks[i]};
      }
      assert blocks[..|blocks|] == blocks;
      free, used := list, left;
    }

    /** Removes a file and gives its blocks back. */
    method Release(path: string)
      requires Valid() && path in files
      modifies this`free, this`used, this`files
      ensures Valid() && files == old(files) - {path} && free == old(free) + old(files)[path].blocks
    {
      DropOwner(files, used, path);
      GivePartition(free, used, size, files[path].blocks);
      FreeBlocks(files[path].blocks);
      files := files - {path};
    }

    /** Creates or overwrites a file. A failed overwrite has already given up the old file. */
    method CreateFile(path: string, dataLen: nat) returns (r: Result<seq<nat>>)
      requires Valid()
      modifies this`free, this`used, this`files
      ensures Valid()
      ensures r.Ok? <==>
              BlocksFor(dataLen, blockSize)
                <= |old(free)| + (if path in old(files) then |old(files)[path].blocks| else 0)
      ensures r.Ok? ==>
                |r.value| == BlocksFor(dataLen, blockSize) && files == old(files)[path := File(dataLen, r.value)]
      ensures r.Err? ==> files == old(files) - {path}
      ensures |free| == |old(free)| + (if path in old(files) then |old(files)[path].blocks| else 0)
                        - (if r.Ok? then |r.value| else 0)
      ensures size == old(size)
    {
      var n := BlocksFor(dataLen, blockSize);
      if path in files {
        Release(path);
      }
      ghost var kept, taken := files, used;
      r := AllocateBlocks(n);
      if r.Err? {
        return;
      }
      AddOwner(files, taken, path, File(dataLen, r.value));
      files := files[path := File(dataLen, r.value)];
      assert files == old(files)[path := File(dataLen, r.value)];
    }

    method DeleteFile(path: string) returns (ok: bool)
      requires Valid()
      modifies this`free, this`used, this`files
      ensures Valid() && (ok <==> path in old(files)) && files == old(files) - {path}
      ensures ok ==> free == old(free) + old(files)[path].blocks
      ensures !ok ==> free == old(free) && used == old(used)
    {
      if path !in files {
        return false;
      }
      Release(path);
      ok := true;
    }
  }

  lemma NothingOwned(files: map<string, File>)
    ensures FilesOwn(files, {}) <==> HoldNothing(files)
  {
    if FilesOwn(files, {}) {
      forall p | p in files ensures files[p].blocks == [] {
        if |files[p].blocks| > 0 {
          assert Owns(files, p, files[p].blocks[0]);
        }
      }
    }
  }

  // ----- Runs -----

  datatype Op =
    | Create(path: string, dataLen: nat)
    | Delete(path: string)
    | Format

  /** What a run amounts to: how big each file is, in bytes and blocks, and how many blocks are free. */
  datatype Usage = Usage(files: map<string, (nat, nat)>, free: nat)

  function Released(u: Usage, path: string): Usage
  {
    if path in u.files then Usage(u.files - {path}, u.free + u.files[path].1) else u
  }

  function Step(u: Usage, op: Op, blockSize: nat, total: nat): Usage
    requires blockSize > 0
  {
    match op
    case Create(path, dataLen) =>
      var n, r := BlocksFor(dataLen, blockSize), Released(u, path);
      if n <= r.free then Usage(r.files[path := (dataLen, n)], r.free - n) else r
    case Delete(path) => Released(u, path)
    case Format => Usage(map[], total)
  }

  function After(ops: seq<Op>, blockSize: nat, total: nat): Usage
    requires blockSize > 0
  {
    if |ops| == 0 then Usage(map[], total)
    else Step(After(ops[..|ops| - 1], blockSize, total), ops[|ops| - 1], blockSize, total)
  }

  /** A volume whose size is not a multiple of the block size is refused and stays empty. */
  function WholeBlocks(bytes: nat, blockSize: nat): nat
    requires blockSize > 0
  {
    if bytes % blockSize == 0 then bytes / blockSize else 0
  }

  /** The file system's lists have the lengths the usage says. */
  ghost predicate Shows(u: Usage, free: seq<nat>, files: map<string, File>)
  {
    && |free| == u.free && files.Keys == u.files.Keys
    && forall p :: p in files ==> u.files[p] == (files[p].size, |files[p].blocks|)
  }

  /** Any run of creates, overwrites, deletes and formats on a new volume, failures included. */
  method Session(blockSize: nat, bytes: nat, ops: seq<Op>) returns (fs: SimpleFS)
    requires blockSize > 0
    ensures fresh(fs) && fs.Valid() && |fs.free| + |fs.used| == fs.size == WholeBlocks(bytes, blockSize)
    ensures Shows(After(ops, blockSize, WholeBlocks(bytes, blockSize)), fs.free, fs.files)
  {
    fs := new SimpleFS(blockSize);
    var _ := fs.CreateVolume("volume", bytes);
    ghost var total := WholeBlocks(bytes, blockSize);
    for i := 0 to |ops|
      invariant fresh(fs) && fs.Valid() && fs.blockSize == blockSize && fs.size == total
      invariant Shows(After(ops[..i], blockSize, total), fs.free, fs.files)
    {
      hide Step, Shows, Partition, FilesOwn;
      assert ops[..i + 1][..i] == ops[..i];
      Apply(fs, ops[i], After(ops[..i], blockSize, total));
    }
    assert ops[..|ops|] == ops;
    Conservation(fs.free, fs.used, fs.size);
  }

  /** One operation changes the lists as the usage says. */
  method Apply(fs: SimpleFS, op: Op, ghost u: Usage)
    requires fs.Valid() && Shows(u, fs.free, fs.files)
    modifies fs
    ensures fs.Valid() && fs.size == old(fs.size)
    ensures Shows(Step(u, op, fs.blockSize, fs.size), fs.free, fs.files)
  {
    hide Partition, FilesOwn, BlocksFor;
    match op
    case Create(path, dataLen) =>
      var _ := fs.CreateFile(path, dataLen);
    case Delete(path) =>
      var _ := fs.DeleteFile(path);
    case Format =>
      fs.FormatVolume();
  }
}
