/** Chunk objects: sorted blocks packed at a fixed stride, sealed one by one on encrypted volumes. */
module Chunks {
  import opened Bytes
  import opened Extents
  import opened Sealing
  import opened Sorting
  import opened Blocks

  const CHUNK_HEADER := 10

  datatype Geometry = Geometry(blockSize: nat, numBlocks: nat, objBlockSize: nat, version: nat, cipher: Cipher)
  {
    function Stride(): nat
    {
      if cipher.Plain? then blockSize else blockSize + TAG_SIZE
    }

    /** How many blocks a full chunk holds: it closes as soon as it has objBlockSize bytes. */
    function ChunkBlocks(): (n: nat)
      ensures n > 0
    {
      if blockSize == 0 || objBlockSize == 0 then 1 else (objBlockSize - 1) / blockSize + 1
    }

    ghost predicate Ok()
    {
      && 0 < blockSize < Capacity(4) && numBlocks < Capacity(8) && version < Capacity(2)
      && ChunkBlocks() <= MAX_RUN && CHUNK_HEADER + Times(ChunkBlocks(), Stride()) <= Capacity(4)
      && cipher.Opens(blockSize)
    }
  }

  /** A chunk of n blocks is full exactly from ChunkBlocks on. */
  lemma FullAt(g: Geometry, n: nat)
    requires g.blockSize > 0 && n > 0
    ensures Times(n, g.blockSize) >= g.objBlockSize <==> n >= g.ChunkBlocks()
  {
    if g.objBlockSize > 0 {
      var q := (g.objBlockSize - 1) / g.blockSize;
      DivTimes(g.objBlockSize - 1, g.blockSize);
      if n > q {
        TimesMono(q + 1, n, g.blockSize);
      } else {
        TimesMono(n, q, g.blockSize);
      }
    }
  }

  ghost predicate Sized(g: Geometry, x: Block)
  {
    x.block < g.numBlocks && |x.data| == g.blockSize == x.len
  }

  /** What a chunk may contain. */
  ghost predicate PackedOk(g: Geometry, blocks: seq<Block>)
  {
    && Increasing(Numbers(blocks)) && |blocks| <= g.ChunkBlocks()
    && forall i :: 0 <= i < |blocks| ==> Sized(g, blocks[i])
  }

  function Stored(g: Geometry, x: Block): seq<byte>
  {
    match g.cipher
    case Plain => x.data
    case Aead(seal, _) => seal(x.seqNum, x.block, x.data)
  }

  function OpenStored(g: Geometry, seqNum: nat, block: nat, s: seq<byte>): Option<seq<byte>>
  {
    match g.cipher
    case Plain => Some(s)
    case Aead(_, open) => open(seqNum, block, s)
  }

  lemma StoredOpens(g: Geometry, x: Block)
    requires g.Ok() && |x.data| == g.blockSize
    ensures |Stored(g, x)| == g.Stride()
    ensures OpenStored(g, x.seqNum, x.block, Stored(g, x)) == Some(x.data)
  {
  }

  function Body(g: Geometry, blocks: seq<Block>): seq<byte>
  {
    if |blocks| == 0 then [] else Body(g, blocks[..|blocks| - 1]) + Stored(g, blocks[|blocks| - 1])
  }

  function ChunkHeader(g: Geometry): (s: seq<byte>)
    requires g.Ok()
    ensures |s| == CHUNK_HEADER
  {
    (if g.cipher.Plain? then [86, 66, 67, 72] else [86, 66, 67, 69]) + PutUint(2, g.version) + PutUint(4, g.blockSize)
  }

  /** What a reader of the header finds. */
  lemma ChunkHeaderReads(g: Geometry)
    requires g.Ok()
    ensures var h := ChunkHeader(g);
            && Spells(h[..4], if g.cipher.Plain? then "VBCH" else "VBCE")
            && GetUint(h[4..6]) == g.version && GetUint(h[6..10]) == g.blockSize
  {
    hide Geometry.ChunkBlocks, Times;
    var h := ChunkHeader(g);
    assert h[4..6] == PutUint(2, g.version) && h[6..10] == PutUint(4, g.blockSize);
    GetPut(2, g.version);
    GetPut(4, g.blockSize);
  }

  function ChunkBytes(g: Geometry, blocks: seq<Block>): seq<byte>
    requires g.Ok()
  {
    ChunkHeader(g) + Body(g, blocks)
  }

  // ----- Positions -----

  lemma {:induction false} BodyLength(g: Geometry, blocks: seq<Block>)
    requires g.Ok() && PackedOk(g, blocks)
    ensures |Body(g, blocks)| == Times(|blocks|, g.Stride())
  {
    if |blocks| != 0 {
      var n := |blocks| - 1;
      PackedPrefix(g, blocks);
      BodyLength(g, blocks[..n]);
      StoredOpens(g, blocks[n]);
    }
  }

  lemma PackedPrefix(g: Geometry, blocks: seq<Block>)
    requires PackedOk(g, blocks) && |blocks| > 0
    ensures PackedOk(g, blocks[..|blocks| - 1])
  {
    var p := blocks[..|blocks| - 1];
    assert forall i :: 0 <= i < |p| ==> Numbers(p)[i] == Numbers(blocks)[i];
  }

  /** The stored form of x occupies s from byte lo on. */
  ghost predicate Piece(g: Geometry, s: seq<byte>, lo: nat, x: Block)
  {
    lo + g.Stride() <= |s| && s[lo..lo + g.Stride()] == Stored(g, x)
  }

  lemma PieceLeft(g: Geometry, s: seq<byte>, t: seq<byte>, lo: nat, x: Block)
    requires Piece(g, s, lo, x)
    ensures Piece(g, s + t, lo, x)
  {
    assert (s + t)[lo..lo + g.Stride()] == s[lo..lo + g.Stride()];
  }

  lemma PieceEnd(g: Geometry, s: seq<byte>, x: Block)
    requires |Stored(g, x)| == g.Stride()
    ensures Piece(g, s + Stored(g, x), |s|, x)
  {
  }

  lemma SubSlice(s: seq<byte>, from: nat, len: nat, lo: nat, n: nat)
    requires from + len <= |s| && lo + n <= len
    ensures s[from..from + len][lo..lo + n] == s[from + lo..from + lo + n]
  {
    var x, y := s[from..from + len][lo..lo + n], s[from + lo..from + lo + n];
    assert |x| == |y|;
    forall i | 0 <= i < |x| ensures x[i] == y[i] {
      assert s[from..from + len][lo + i] == s[from + (lo + i)];
    }
  }

  lemma PieceWithin(g: Geometry, header: seq<byte>, body: seq<byte>, from: nat, len: nat, lo: nat, x: Block)
    requires Piece(g, body, from + lo, x) && from + len <= |body| && lo + g.Stride() <= len
    ensures Piece(g, (header + body)[|header| + from..|header| + from + len], lo, x)
  {
    assert (header + body)[|header| + from..|header| + from + len] == body[from..from + len];
    SubSlice(body, from, len, lo, g.Stride());
  }

  lemma LastStored(g: Geometry, blocks: seq<Block>)
    requires g.Ok() && PackedOk(g, blocks) && |blocks| > 0
    ensures |Stored(g, blocks[|blocks| - 1])| == g.Stride()
  {
    StoredOpens(g, blocks[|blocks| - 1]);
  }

  lemma {:induction false} BodyAt(g: Geometry, blocks: seq<Block>, i: nat)
    requires g.Ok() && PackedOk(g, blocks) && i < |blocks|
    ensures Piece(g, Body(g, blocks), Times(i, g.Stride()), blocks[i])
  {
    hide Geometry.Ok, PackedOk, Piece, Stored;
    var n := |blocks| - 1;
    PackedPrefix(g, blocks);
    LastStored(g, blocks);
    var before := Body(g, blocks[..n]);
    if i == n {
      BodyLength(g, blocks[..n]);
      PieceEnd(g, before, blocks[n]);
    } else {
      BodyAt(g, blocks[..n], i);
      PieceLeft(g, before, Stored(g, blocks[n]), Times(i, g.Stride()), blocks[i]);
    }
  }

  /** The bytes of positions [p, p + n) of a chunk. */
  function RangeOf(g: Geometry, bytes: seq<byte>, p: nat, n: nat): seq<byte>
    requires CHUNK_HEADER + Times(p, g.Stride()) + Times(n, g.Stride()) <= |bytes|
  {
    bytes[CHUNK_HEADER + Times(p, g.Stride())..CHUNK_HEADER + Times(p, g.Stride()) + Times(n, g.Stride())]
  }

  lemma RangeFits(g: Geometry, blocks: seq<Block>, p: nat, n: nat)
    requires g.Ok() && PackedOk(g, blocks) && p + n <= |blocks|
    ensures Times(p, g.Stride()) + Times(n, g.Stride()) <= |Body(g, blocks)|
    ensures CHUNK_HEADER + Times(p, g.Stride()) + Times(n, g.Stride()) <= |ChunkBytes(g, blocks)|
  {
    BodyLength(g, blocks);
    TimesAdd(p, n, g.Stride());
    TimesMono(p + n, |blocks|, g.Stride());
  }

  lemma StridesFit(stride: nat, k: nat, n: nat)
    requires k < n
    ensures Times(k, stride) + stride <= Times(n, stride)
  {
    TimesMono(k + 1, n, stride);
  }

  /** The k-th piece of a ranged read that starts at position p of a chunk. */
  lemma RangeAt(g: Geometry, blocks: seq<Block>, p: nat, n: nat, k: nat)
    requires g.Ok() && PackedOk(g, blocks) && p + n <= |blocks| && k < n
    requires CHUNK_HEADER + Times(p, g.Stride()) + Times(n, g.Stride()) <= |ChunkBytes(g, blocks)|
    ensures Piece(g, RangeOf(g, ChunkBytes(g, blocks), p, n), Times(k, g.Stride()), blocks[p + k])
  {
    hide Geometry.Ok, PackedOk, Times, Body, Piece, ChunkHeader;
    RangeFits(g, blocks, p, n);
    BodyAt(g, blocks, p + k);
    TimesAdd(p, k, g.Stride());
    StridesFit(g.Stride(), k, n);
    PieceWithin(g, ChunkHeader(g), Body(g, blocks), Times(p, g.Stride()), Times(n, g.Stride()), Times(k, g.Stride()),
                blocks[p + k]);
  }

  // ----- Locations that really hold a write -----

  type Layout = map<nat, seq<Block>>

  ghost predicate HoldsAt(g: Geometry, packed: Layout, loc: Loc, b: nat, p: nat)
  {
    && loc.chunk in packed && p < |packed[loc.chunk]|
    && loc.offset == CHUNK_HEADER + Times(p, g.Stride())
    && packed[loc.chunk][p].block == b && packed[loc.chunk][p].seqNum == loc.seqNum
  }

  ghost predicate Holds(g: Geometry, packed: Layout, loc: Loc, b: nat)
  {
    exists p: nat :: HoldsAt(g, packed, loc, b, p)
  }

  ghost predicate LayoutOk(g: Geometry, packed: Layout)
  {
    forall o :: o in packed ==> PackedOk(g, packed[o])
  }

  /** Two consecutive blocks of one chunk sit exactly one position apart. */
  lemma NeighboursAdjacent(g: Geometry, packed: Layout, l1: Loc, l2: Loc, b: nat, p: nat, q: nat)
    requires LayoutOk(g, packed) && HoldsAt(g, packed, l1, b, p) && HoldsAt(g, packed, l2, b + 1, q)
    requires l1.chunk == l2.chunk
    ensures q == p + 1 && l2.offset == l1.offset + g.Stride()
  {
    var ns := Numbers(packed[l1.chunk]);
    assert ns[p] == b && ns[q] == b + 1;
    assert p + 1 < |ns| ==> ns[p] < ns[p + 1];
  }
}
