/** The reference: a flat, zero-initialised byte array cut into blocks. */
module FlatDisk {
  import opened Bytes
  import opened Blocks
  import opened Chunks

  function Splice(s: seq<byte>, at: nat, patch: seq<byte>): (r: seq<byte>)
    requires at + |patch| <= |s|
    ensures |r| == |s|
  {
    s[..at] + patch + s[at + |patch|..]
  }

  /** after has the patch's own bytes from at on, and every other byte of before. */
  ghost predicate Stores(before: seq<byte>, after: seq<byte>, at: nat, patch: seq<byte>)
  {
    && |after| == |before| && at + |patch| <= |before|
    && forall i :: 0 <= i < |after| ==> after[i] == if at <= i < at + |patch| then patch[i - at] else before[i]
  }

  lemma SpliceStores(s: seq<byte>, at: nat, patch: seq<byte>)
    requires at + |patch| <= |s|
    ensures Stores(s, Splice(s, at, patch), at, patch)
  {
  }

  lemma WholeSplice(a: seq<byte>, c: seq<byte>, patch: seq<byte>)
    requires |a| == |c| == |patch|
    ensures Splice(a, 0, patch) == Splice(c, 0, patch)
  {
  }

  function Zeros(n: nat): (s: seq<byte>)
    ensures |s| == n && forall i :: 0 <= i < n ==> s[i] == 0
  {
    seq(n, _ => 0)
  }

  function BlockAt(s: seq<byte>, b: nat, bs: nat): (r: seq<byte>)
    requires Times(b, bs) + bs <= |s|
    ensures |r| == bs
  {
    s[Times(b, bs)..Times(b, bs) + bs]
  }

  lemma BlockInside(b: nat, n: nat, bs: nat)
    requires b < n
    ensures Times(b, bs) + bs <= Times(n, bs)
  {
    TimesMono(b + 1, n, bs);
  }

  lemma SpliceElsewhere(s: seq<byte>, at: nat, patch: seq<byte>, lo: nat, hi: nat)
    requires at + |patch| <= |s| && lo <= hi <= |s|
    requires hi <= at || at + |patch| <= lo
    ensures Splice(s, at, patch)[lo..hi] == s[lo..hi]
  {
    var r := Splice(s, at, patch);
    forall i | 0 <= i < hi - lo ensures r[lo..hi][i] == s[lo..hi][i] {
      assert r[lo + i] == s[lo + i];
    }
  }

  lemma SpliceWithin(s: seq<byte>, lo: nat, hi: nat, ws: nat, patch: seq<byte>)
    requires lo <= hi <= |s| && lo + ws + |patch| <= hi
    ensures Splice(s, lo + ws, patch)[lo..hi] == Splice(s[lo..hi], ws, patch)
  {
    var r := Splice(s, lo + ws, patch);
    var t := Splice(s[lo..hi], ws, patch);
    forall i | 0 <= i < hi - lo ensures r[lo..hi][i] == t[i] {
      assert r[lo + i] == if lo + i < lo + ws then s[lo + i]
                          else if lo + i < lo + ws + |patch| then patch[i - ws]
                          else s[lo + i];
    }
  }

  /** piece is block b of s. */
  ghost predicate IsBlock(s: seq<byte>, b: nat, bs: nat, piece: seq<byte>)
  {
    Times(b, bs) + bs <= |s| && piece == BlockAt(s, b, bs)
  }

  lemma DistinctBlocks(b: nat, c: nat, bs: nat)
    requires b != c
    ensures Times(b, bs) + bs <= Times(c, bs) || Times(c, bs) + bs <= Times(b, bs)
  {
    if b < c {
      BlockInside(b, c, bs);
    } else {
      BlockInside(c, b, bs);
    }
  }

  /** Patching inside block b changes block b ... */
  lemma SpliceSame(s: seq<byte>, bs: nat, b: nat, ws: nat, patch: seq<byte>, piece: seq<byte>)
    requires ws + |patch| <= bs && IsBlock(s, b, bs, piece)
    ensures IsBlock(Splice(s, Times(b, bs) + ws, patch), b, bs, Splice(piece, ws, patch))
  {
    SpliceWithin(s, Times(b, bs), Times(b, bs) + bs, ws, patch);
  }

  /** ... and nothing else. */
  lemma SpliceOther(s: seq<byte>, bs: nat, b: nat, ws: nat, patch: seq<byte>, c: nat, piece: seq<byte>)
    requires Times(b, bs) + bs <= |s| && ws + |patch| <= bs && c != b
    requires IsBlock(s, c, bs, piece)
    ensures IsBlock(Splice(s, Times(b, bs) + ws, patch), c, bs, piece)
  {
    DistinctBlocks(b, c, bs);
    SpliceElsewhere(s, Times(b, bs) + ws, patch, Times(c, bs), Times(c, bs) + bs);
  }

  /** Writing a prefix and then the next part is writing the longer prefix. */
  lemma SpliceExtend(s: seq<byte>, at: nat, data: seq<byte>, done: nat, next: nat)
    requires at + |data| <= |s| && done <= next <= |data|
    ensures Splice(Splice(s, at, data[..done]), at + done, data[done..next]) == Splice(s, at, data[..next])
  {
  }

  lemma BlockNumberBound(x: nat, n: nat, bs: nat)
    requires bs > 0 && x < Times(n, bs)
    ensures x / bs < n
  {
    DivTimes(x, bs);
    if n <= x / bs {
      TimesMono(n, x / bs, bs);
    }
  }

  // ----- Reading whole blocks and cutting a range out -----

  function Join(pieces: seq<seq<byte>>): seq<byte>
  {
    if |pieces| == 0 then [] else Join(pieces[..|pieces| - 1]) + pieces[|pieces| - 1]
  }

  lemma {:induction false} JoinBlocks(pieces: seq<seq<byte>>, s: seq<byte>, first: nat, bs: nat)
    requires Times(first, bs) <= Times(first + |pieces|, bs) <= |s|
    requires forall i :: 0 <= i < |pieces| ==> IsBlock(s, first + i, bs, pieces[i])
    ensures Join(pieces) == s[Times(first, bs)..Times(first + |pieces|, bs)]
  {
    if |pieces| != 0 {
      var n := |pieces| - 1;
      TimesMono(first, first + n, bs);
      JoinBlocks(pieces[..n], s, first, bs);
      assert IsBlock(s, first + n, bs, pieces[n]);
      AdjacentSlices(s, Times(first, bs), Times(first + n, bs), bs);
    }
  }

  lemma AdjacentSlices(s: seq<byte>, lo: nat, mid: nat, n: nat)
    requires lo <= mid && mid + n <= |s|
    ensures s[lo..mid] + s[mid..mid + n] == s[lo..mid + n]
  {
  }

  // ----- The disk a set of newest writes stands for -----

  function Content(bs: nat, latest: map<nat, Block>, b: nat): seq<byte>
  {
    if b in latest then latest[b].data else Zeros(bs)
  }

  /** disk holds, block by block, the newest write of each block, and zeros elsewhere. */
  ghost predicate Shows(g: Geometry, disk: seq<byte>, latest: map<nat, Block>)
  {
    && |disk| == Times(g.numBlocks, g.blockSize)
    && forall b: nat :: b < g.numBlocks ==> IsBlock(disk, b, g.blockSize, Content(g.blockSize, latest, b))
  }

  lemma {:induction false} ZeroDiskShows(g: Geometry)
    ensures Shows(g, Zeros(Times(g.numBlocks, g.blockSize)), map[])
  {
    forall b: nat | b < g.numBlocks
      ensures IsBlock(Zeros(Times(g.numBlocks, g.blockSize)), b, g.blockSize, Zeros(g.blockSize))
    {
      BlockInside(b, g.numBlocks, g.blockSize);
    }
  }

  /** Publishing a rebuilt block is storing the written bytes in the flat disk, and nothing else. */
  lemma WriteShows(g: Geometry, disk: seq<byte>, latest: map<nat, Block>, x: Block, ws: nat, patch: seq<byte>)
    requires Shows(g, disk, latest) && x.block < g.numBlocks && ws + |patch| <= g.blockSize
    requires x.data == Splice(Content(g.blockSize, latest, x.block), ws, patch)
    requires |Content(g.blockSize, latest, x.block)| == g.blockSize
    ensures Times(x.block, g.blockSize) + g.blockSize <= |disk|
    ensures var at := Times(x.block, g.blockSize) + ws;
            Shows(g, Splice(disk, at, patch), latest[x.block := x]) && Stores(disk, Splice(disk, at, patch), at, patch)
  {
    assert IsBlock(disk, x.block, g.blockSize, Content(g.blockSize, latest, x.block));
    var after := Splice(disk, Times(x.block, g.blockSize) + ws, patch);
    var bs, latest' := g.blockSize, latest[x.block := x];
    forall b: nat | b < g.numBlocks
      ensures IsBlock(after, b, bs, Content(bs, latest', b))
    {
      if b == x.block {
        SpliceSame(disk, bs, b, ws, patch, Content(bs, latest, b));
      } else {
        SpliceOther(disk, bs, x.block, ws, patch, b, Content(bs, latest, b));
      }
    }
    SpliceStores(disk, Times(x.block, bs) + ws, patch);
  }

  /** The first n blocks of the disk a set of newest writes stands for. */
  function Rendered(bs: nat, latest: map<nat, Block>, n: nat): seq<byte>
  {
    if n == 0 then [] else Rendered(bs, latest, n - 1) + Content(bs, latest, n - 1)
  }

  lemma {:induction false} RenderedBlock(bs: nat, latest: map<nat, Block>, n: nat, b: nat)
    requires forall b :: b in latest ==> |latest[b].data| == bs
    ensures |Rendered(bs, latest, n)| == Times(n, bs)
    ensures b < n ==> IsBlock(Rendered(bs, latest, n), b, bs, Content(bs, latest, b))
  {
    if n > 0 {
      RenderedBlock(bs, latest, n - 1, b);
      if b < n - 1 {
        BlockInside(b, n - 1, bs);
      }
    }
  }

  lemma RenderedShows(g: Geometry, latest: map<nat, Block>)
    requires forall b :: b in latest ==> |latest[b].data| == g.blockSize
    ensures Shows(g, Rendered(g.blockSize, latest, g.numBlocks), latest)
  {
    hide Rendered, IsBlock;
    RenderedBlock(g.blockSize, latest, g.numBlocks, 0);
    forall b: nat | b < g.numBlocks
      ensures IsBlock(Rendered(g.blockSize, latest, g.numBlocks), b, g.blockSize, Content(g.blockSize, latest, b))
    {
      RenderedBlock(g.blockSize, latest, g.numBlocks, b);
    }
  }
}
