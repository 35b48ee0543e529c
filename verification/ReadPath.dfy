/**
 Fetching uploaded blocks: requests for consecutive blocks of one chunk are
 joined into a single ranged read, on block number and chunk alone.
 */
module ReadPath {
  import opened Bytes
  import opened Extents
  import opened Blocks
  import opened Chunks

  type Backend = map<nat, seq<byte>>

  /** One block the reader still needs, and where the index says it is. */
  datatype Request = Request(position: nat, block: nat, loc: Loc)

  /** A ranged read; past the end of the object the answer is short. */
  function ReadRange(chunks: Backend, id: nat, offset: nat, length: nat): Option<seq<byte>>
  {
    if id !in chunks then None
    else
      var bytes := chunks[id];
      var lo := if offset <= |bytes| then offset else |bytes|;
      var hi := if lo + length <= |bytes| then lo + length else |bytes|;
      Some(bytes[lo..hi])
  }

  /** Chunk objects are exactly the packed blocks they were built from. */
  ghost predicate BytesMatch(g: Geometry, chunks: Backend, packed: Layout)
    requires g.Ok()
  {
    forall o :: o in chunks ==> o in packed && chunks[o] == ChunkBytes(g, packed[o])
  }

  ghost predicate ServedAt(g: Geometry, chunks: Backend, packed: Layout, r: Request, x: Block, p: nat)
  {
    r.loc.chunk in chunks && HoldsAt(g, packed, r.loc, r.block, p) && packed[r.loc.chunk][p] == x
  }

  /** The location of r really holds block x. */
  ghost predicate Served(g: Geometry, chunks: Backend, packed: Layout, r: Request, x: Block)
  {
    exists p: nat :: ServedAt(g, chunks, packed, r, x, p)
  }

  ghost predicate AllServed(g: Geometry, chunks: Backend, packed: Layout, requests: seq<Request>, want: seq<Block>)
  {
    |want| == |requests| && forall i :: 0 <= i < |requests| ==> Served(g, chunks, packed, requests[i], want[i])
  }

  /** Requests [i, j) lie at consecutive positions of one chunk from p on. */
  ghost predicate Aligned(g: Geometry, packed: Layout, requests: seq<Request>, want: seq<Block>, i: nat, j: nat, p: nat)
    requires i < j <= |requests| == |want|
  {
    forall k :: i <= k < j ==>
      && requests[k].loc.chunk == requests[i].loc.chunk
      && HoldsAt(g, packed, requests[k].loc, requests[k].block, p + (k - i))
      && packed[requests[i].loc.chunk][p + (k - i)] == want[k]
  }

  /**
   Extends a merged read as far as block numbers are consecutive and the chunk
   is the same. The offsets are never compared, yet they always line up.
   */
  method MergeEnd(g: Geometry, requests: seq<Request>, i: nat, ghost chunks: Backend, ghost packed: Layout,
                  ghost want: seq<Block>)
    returns (j: nat, ghost p: nat)
    requires i < |requests| && LayoutOk(g, packed) && AllServed(g, chunks, packed, requests, want)
    ensures i < j <= |requests| && Aligned(g, packed, requests, want, i, j, p)
    ensures j < |requests| ==>
              || requests[j].block != requests[j - 1].block + 1
              || requests[j].loc.chunk != requests[j - 1].loc.chunk
  {
    hide LayoutOk, HoldsAt;
    j := i + 1;
    p :| ServedAt(g, chunks, packed, requests[i], want[i], p);
    while j < |requests| && requests[j].block == requests[j - 1].block + 1
        && requests[j].loc.chunk == requests[j - 1].loc.chunk
      invariant i < j <= |requests| && Aligned(g, packed, requests, want, i, j, p)
    {
      ghost var q: nat :| ServedAt(g, chunks, packed, requests[j], want[j], q);
      NeighboursAdjacent(g, packed, requests[j - 1].loc, requests[j].loc, requests[j - 1].block, p + (j - 1 - i), q);
      j := j + 1;
    }
  }

  /** On an encrypted volume a chunk is read only if it carries the signature of encrypted chunks. */
  predicate MagicOk(g: Geometry, chunks: Backend, id: nat)
  {
    g.cipher.Plain? || ReadRange(chunks, id, 0, 4) == Some([86, 66, 67, 69])
  }

  lemma MagicExact(g: Geometry, chunks: Backend, id: nat)
    ensures MagicOk(g, chunks, id)
       <==> g.cipher.Plain? || (id in chunks && |chunks[id]| >= 4 && Spells(chunks[id][..4], "VBCE"))
  {
    if id in chunks && |chunks[id]| >= 4 {
      var s := chunks[id][..4];
      assert chunks[id][0..4] == s;
      assert Spells(s, "VBCE") <==> s == [86, 66, 67, 69];
    }
  }

  lemma MagicMatches(g: Geometry, chunks: Backend, packed: Layout, id: nat)
    requires g.Ok() && BytesMatch(g, chunks, packed) && id in chunks
    ensures MagicOk(g, chunks, id)
  {
    hide Geometry.Ok, Body;
    hide MagicOk;
    MagicExact(g, chunks, id);
    ChunkHeaderReads(g);
    assert chunks[id][..4] == ChunkHeader(g)[..4];
  }

  /** Reads and opens one merged run. */
  method FetchRun(g: Geometry, chunks: Backend, requests: seq<Request>, i: nat, j: nat,
                  ghost packed: Layout, ghost want: seq<Block>, ghost p: nat)
    returns (ok: bool, datas: seq<seq<byte>>)
    requires g.Ok() && LayoutOk(g, packed) && BytesMatch(g, chunks, packed)
    requires i < j <= |requests| == |want| && requests[i].loc.chunk in chunks
    requires Aligned(g, packed, requests, want, i, j, p)
    ensures ok && |datas| == j - i
    ensures forall k :: 0 <= k < j - i ==> datas[k] == want[i + k].data
  {
    hide Geometry.Ok, BytesMatch, PackedOk, Times, RangeOf, ChunkBytes, Piece, Stored, OpenStored;
    var n, st := j - i, g.Stride();
    var first := requests[i].loc;
    ghost var blocks := packed[first.chunk];
    RunBytes(g, chunks, packed, requests, want, i, j, p);
    MagicMatches(g, chunks, packed, first.chunk);
    datas := [];
    if !MagicOk(g, chunks, first.chunk) {
      return false, [];
    }
    var got := ReadRange(chunks, first.chunk, first.offset, Times(n, st));
    if got.None? || |got.value| != Times(n, st) {
      return false, [];
    }
    var bytes := got.value;
    for k := 0 to n
      invariant |datas| == k
      invariant forall x :: 0 <= x < k ==> datas[x] == want[i + x].data
    {
      RunPiece(g, packed, requests, want, i, j, p, k);
      var plain := OpenStored(g, requests[i + k].loc.seqNum, requests[i + k].block,
                              bytes[Times(k, st)..Times(k, st) + st]);
      if plain.None? {
        return false, [];
      }
      datas := datas + [plain.value];
    }
    ok := true;
  }

  /** The ranged read brings exactly the run's stretch of the chunk. */
  lemma RunBytes(g: Geometry, chunks: Backend, packed: Layout, requests: seq<Request>, want: seq<Block>, i: nat,
                 j: nat, p: nat)
    requires g.Ok() && LayoutOk(g, packed) && BytesMatch(g, chunks, packed)
    requires i < j <= |requests| == |want| && requests[i].loc.chunk in chunks
    requires Aligned(g, packed, requests, want, i, j, p)
    ensures requests[i].loc.chunk in packed && PackedOk(g, packed[requests[i].loc.chunk])
    ensures p + (j - i) <= |packed[requests[i].loc.chunk]|
    ensures CHUNK_HEADER + Times(p, g.Stride()) + Times(j - i, g.Stride())
         <= |ChunkBytes(g, packed[requests[i].loc.chunk])|
    ensures ReadRange(chunks, requests[i].loc.chunk, requests[i].loc.offset, Times(j - i, g.Stride()))
         == Some(RangeOf(g, ChunkBytes(g, packed[requests[i].loc.chunk]), p, j - i))
    ensures |RangeOf(g, ChunkBytes(g, packed[requests[i].loc.chunk]), p, j - i)| == Times(j - i, g.Stride())
  {
    hide Geometry.Ok, PackedOk, Times, ChunkBytes;
    assert HoldsAt(g, packed, requests[j - 1].loc, requests[j - 1].block, p + (j - 1 - i));
    assert HoldsAt(g, packed, requests[i].loc, requests[i].block, p + (i - i));
    RangeFits(g, packed[requests[i].loc.chunk], p, j - i);
  }

  /** Its k-th piece opens to the k-th wanted block. */
  lemma RunPiece(g: Geometry, packed: Layout, requests: seq<Request>, want: seq<Block>, i: nat, j: nat, p: nat, k: nat)
    requires g.Ok() && i < j <= |requests| == |want| && k < j - i && requests[i].loc.chunk in packed
    requires PackedOk(g, packed[requests[i].loc.chunk]) && p + (j - i) <= |packed[requests[i].loc.chunk]|
    requires Aligned(g, packed, requests, want, i, j, p)
    requires CHUNK_HEADER + Times(p, g.Stride()) + Times(j - i, g.Stride())
          <= |ChunkBytes(g, packed[requests[i].loc.chunk])|
    ensures var bytes := RangeOf(g, ChunkBytes(g, packed[requests[i].loc.chunk]), p, j - i);
            var r, at := requests[i + k], Times(k, g.Stride());
            at + g.Stride() <= |bytes| && OpenStored(g, r.loc.seqNum, r.block, bytes[at..at + g.Stride()])
                == Some(want[i + k].data)
  {
    hide Geometry.Ok, Times, ChunkBytes, RangeOf;
    var blocks := packed[requests[i].loc.chunk];
    RangeAt(g, blocks, p, j - i, k);
    assert HoldsAt(g, packed, requests[i + k].loc, requests[i + k].block, p + ((i + k) - i));
    PieceOpens(g, RangeOf(g, ChunkBytes(g, blocks), p, j - i), Times(k, g.Stride()), blocks[p + k]);
  }

  lemma PieceOpens(g: Geometry, s: seq<byte>, lo: nat, x: Block)
    requires g.Ok() && Piece(g, s, lo, x) && |x.data| == g.blockSize
    ensures OpenStored(g, x.seqNum, x.block, s[lo..lo + g.Stride()]) == Some(x.data)
  {
    StoredOpens(g, x);
  }

  /** Serves every request, one ranged read per merged run. */
  method FetchConsecutive(g: Geometry, chunks: Backend, requests: seq<Request>, ghost packed: Layout,
                          ghost want: seq<Block>)
    returns (ok: bool, datas: seq<seq<byte>>)
    requires g.Ok() && LayoutOk(g, packed) && BytesMatch(g, chunks, packed)
    requires AllServed(g, chunks, packed, requests, want)
    ensures ok && |datas| == |requests|
    ensures forall k :: 0 <= k < |requests| ==> datas[k] == want[k].data
  {
    hide Geometry.Ok, LayoutOk, BytesMatch, Aligned, HoldsAt;
    datas := [];
    var i := 0;
    while i < |requests|
      invariant 0 <= i <= |requests| && |datas| == i
      invariant forall k :: 0 <= k < i ==> datas[k] == want[k].data
    {
      var j;
      ghost var p;
      j, p := MergeEnd(g, requests, i, chunks, packed, want);
      assert Served(g, chunks, packed, requests[i], want[i]);
      ghost var q: nat :| ServedAt(g, chunks, packed, requests[i], want[i], q);
      var ran, run := FetchRun(g, chunks, requests, i, j, packed, want, p);
      if !ran {
        return false, [];
      }
      forall k | i <= k < j ensures (datas + run)[k] == want[k].data {
        assert run[k - i] == want[i + (k - i)].data;
      }
      datas := datas + run;
      i := j;
    }
    ok := true;
  }
}
