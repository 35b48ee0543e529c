/**
 Clones of clones. Each generation is a volume opened from a snapshot of the one
 before it, with a map of its own, and is snapshotted in turn.
 */
module Generations {
  import opened Bytes
  import opened Extents
  import opened Checkpoint
  import opened Snapshot

  datatype Generation = Generation(ident: Identity, own: Index, timestamp: nat)
  {
    ghost predicate Ok(stride: nat)
    {
      && WellFormed(own) && Encodable(Denote(own, stride)) && |Denote(own, stride).Keys| <= MAX_INT / RECORD_SIZE
      && ident.Ok() && timestamp < Capacity(8)
    }

    ghost function Wrote(stride: nat): Written
      requires Ok(stride)
    {
      Written(ident, Denote(own, stride))
    }
  }

  /** What one generation put where. */
  datatype Written = Written(ident: Identity, blocks: map<nat, Loc>)

  ghost predicate AllOk(gens: seq<Generation>, stride: nat)
  {
    forall n :: 0 <= n < |gens| ==> gens[n].Ok(stride)
  }

  /** What each generation wrote, the oldest first. */
  ghost function AllWrote(gens: seq<Generation>, stride: nat): (ws: seq<Written>)
    requires AllOk(gens, stride)
    ensures |ws| == |gens| && forall n :: 0 <= n < |gens| ==> ws[n] == gens[n].Wrote(stride)
  {
    seq(|gens|, n requires 0 <= n < |gens| => gens[n].Wrote(stride))
  }

  /** The topmost generation that wrote the block, and where it put it. */
  ghost function Top(ws: seq<Written>, b: nat): Option<(Identity, Loc)>
  {
    if |ws| == 0 then None
    else
      var x := ws[|ws| - 1];
      if b in x.blocks then Some((x.ident, x.blocks[b])) else Top(ws[..|ws| - 1], b)
  }

  /** The blocks that generations from j on wrote. */
  ghost function Above(ws: seq<Written>, j: nat): set<nat>
    requires j <= |ws|
    decreases |ws| - j
  {
    if j == |ws| then {} else ws[j].blocks.Keys + Above(ws, j + 1)
  }

  /** What is left of generation j when all later ones hide what they wrote. */
  ghost function Visible(ws: seq<Written>, j: nat): map<nat, Loc>
    requires j < |ws|
  {
    ws[j].blocks - Above(ws, j + 1)
  }

  /** Generation j's name and what is left of it fit their fields. */
  ghost predicate Fits(ws: seq<Written>, j: nat)
    requires j < |ws|
  {
    |ws[j].ident.name| < Capacity(2) && |Visible(ws, j).Keys| < Capacity(4)
  }

  /** The newest generation can be snapshotted: all those below it fit. */
  ghost predicate Storable(ws: seq<Written>)
  {
    |ws| <= MAX_SOURCES + 1 && forall j :: 0 <= j < |ws| - 1 ==> Fits(ws, j)
  }

  ghost predicate AllStorable(ws: seq<Written>)
  {
    forall n :: 0 < n <= |ws| ==> Storable(ws[..n])
  }

  /** The layer is what is left of generation j. */
  ghost predicate LayerIs(ws: seq<Written>, layer: Layer, j: nat)
    requires j < |ws|
  {
    layer.Ok() && layer.ident == ws[j].ident && FlatMeaning(layer.blocks) == Visible(ws, j)
  }

  /** A clone of the newest generation has one layer for each, the newest first. */
  ghost predicate LayersAre(ws: seq<Written>, layers: seq<Layer>)
  {
    |layers| == |ws| && forall p :: 0 <= p < |layers| ==> LayerIs(ws, layers[p], |ws| - 1 - p)
  }

  lemma LayerKeys(ws: seq<Written>, layer: Layer, j: nat)
    requires j < |ws| && LayerIs(ws, layer, j)
    ensures layer.blocks.Keys == ws[j].blocks.Keys - Above(ws, j + 1)
  {
    assert layer.blocks.Keys == FlatMeaning(layer.blocks).Keys;
  }

  /** What the first p layers hold is what the newest p generations wrote. */
  lemma {:induction false} SeenIsAbove(ws: seq<Written>, layers: seq<Layer>, p: nat, seen: set<nat>)
    requires LayersAre(ws, layers) && p <= |layers|
    ensures SeenIn(layers, p, seen) == seen + Above(ws, |ws| - p)
  {
    hide LayerIs;
    if p != 0 {
      SeenIsAbove(ws, layers, p - 1, seen);
      LayerKeys(ws, layers[p - 1], |ws| - 1 - (p - 1));
    }
  }

  /** One more generation hides its own blocks in all the others. */
  lemma {:induction false} AboveGrows(ws: seq<Written>, x: Written, j: nat)
    requires j <= |ws|
    ensures Above(ws + [x], j) == Above(ws, j) + x.blocks.Keys
    decreases |ws| - j
  {
    if j < |ws| {
      AboveGrows(ws, x, j + 1);
    }
  }

  lemma VisibleGrows(ws: seq<Written>, x: Written, j: nat)
    requires j < |ws|
    ensures Visible(ws + [x], j) == Visible(ws, j) - x.blocks.Keys
  {
    AboveGrows(ws, x, j + 1);
  }

  lemma MeaningWithout(flat: Flat, d: map<nat, Loc>, above: set<nat>, own: set<nat>)
    requires FlatMeaning(flat) == d - above
    ensures FlatMeaning(flat - (own + above)) == d - above - own
    ensures (flat - (own + above)).Keys == (d - above - own).Keys
  {
    assert flat.Keys == FlatMeaning(flat).Keys;
  }

  /** A layer flattened under one more generation. */
  lemma FlattenedIs(ws: seq<Written>, layers: seq<Layer>, x: Written, p: nat, s: Layer)
    requires LayersAre(ws, layers) && p < |layers|
    requires s == layers[p].(blocks := layers[p].blocks - SeenIn(layers, p, x.blocks.Keys))
    ensures s.ident == ws[|ws| - 1 - p].ident && FlatMeaning(s.blocks) == Visible(ws + [x], |ws| - 1 - p)
    ensures s.blocks.Keys == Visible(ws + [x], |ws| - 1 - p).Keys
  {
    hide Layer.Ok, Above, SeenIn, FlatMeaning;
    var j, own := |ws| - 1 - p, x.blocks.Keys;
    assert LayerIs(ws, layers[p], j);
    SeenIsAbove(ws, layers, p, own);
    VisibleGrows(ws, x, j);
    MeaningWithout(layers[p].blocks, ws[j].blocks, Above(ws, j + 1), own);
  }

  lemma FittingIs(ws: seq<Written>, layers: seq<Layer>, x: Written, p: nat)
    requires LayersAre(ws, layers) && p < |layers|
    ensures Fitting(layers, x.blocks.Keys, p) <==> Fits(ws + [x], |ws| - 1 - p)
  {
    hide LayerIs, Visible, SeenIn, FlatMeaning;
    FlattenedIs(ws, layers, x, p, layers[p].(blocks := layers[p].blocks - SeenIn(layers, p, x.blocks.Keys)));
    assert (ws + [x])[|ws| - 1 - p] == ws[|ws| - 1 - p];
  }

  lemma LowerLayer(ws: seq<Written>, layers: seq<Layer>, x: Written, p: nat)
    requires LayersAre(ws, layers) && p < |layers| && Stripped(layers, x.blocks.Keys)[p].Ok()
    ensures LayerIs(ws + [x], Stripped(layers, x.blocks.Keys)[p], |ws| - 1 - p)
  {
    hide LayersAre, Layer.Ok, Stripped, Visible, SeenIn, FlatMeaning;
    LayersOk(ws, layers);
    StrippedAt(layers, x.blocks.Keys, p);
    FlattenedIs(ws, layers, x, p, Stripped(layers, x.blocks.Keys)[p]);
    assert (ws + [x])[|ws| - 1 - p] == ws[|ws| - 1 - p];
  }

  lemma TopLayer(ws: seq<Written>, x: Written, base: Flat)
    requires FlatMeaning(base) == x.blocks && Layer(x.ident, base).Ok()
    ensures LayerIs(ws + [x], Layer(x.ident, base), |ws|)
  {
    hide Layer.Ok, FlatMeaning;
    assert Above(ws + [x], |ws| + 1) == {} && (ws + [x])[|ws|] == x;
  }

  lemma StorableIs(ws: seq<Written>, layers: seq<Layer>, x: Written)
    requires LayersAre(ws, layers)
    ensures Storable(ws + [x])
       <==> |layers| <= MAX_SOURCES && forall i :: 0 <= i < |layers| ==> Fitting(layers, x.blocks.Keys, i)
  {
    hide LayerIs, Fitting, Fits;
    if Storable(ws + [x]) {
      forall i | 0 <= i < |layers| ensures Fitting(layers, x.blocks.Keys, i) {
        FittingIs(ws, layers, x, i);
      }
    }
    if forall i :: 0 <= i < |layers| ==> Fitting(layers, x.blocks.Keys, i) {
      forall j | 0 <= j < |ws| ensures Fits(ws + [x], j) {
        FittingIs(ws, layers, x, |ws| - 1 - j);
      }
    }
  }

  /** Opening the snapshot of generation x, taken over the layers of those before it. */
  lemma NextLayers(ws: seq<Written>, layers: seq<Layer>, x: Written, base: Flat, ancestors: seq<Layer>)
    requires LayersAre(ws, layers)
    requires FlatMeaning(base) == x.blocks && ancestors == Stripped(layers, x.blocks.Keys)
    requires Layer(x.ident, base).Ok() && forall i :: 0 <= i < |ancestors| ==> ancestors[i].Ok()
    ensures LayersAre(ws + [x], [Layer(x.ident, base)] + ancestors)
  {
    hide Layer.Ok, Stripped, FlatMeaning, LayerIs;
    var all, now := ws + [x], [Layer(x.ident, base)] + ancestors;
    forall p | 0 <= p < |now| ensures LayerIs(all, now[p], |all| - 1 - p) {
      if p == 0 {
        TopLayer(ws, x, base);
      } else {
        assert now[p] == ancestors[p - 1];
        LowerLayer(ws, layers, x, p - 1);
      }
    }
  }

  ghost predicate ResolvesTop(ws: seq<Written>, layers: seq<Layer>)
  {
    forall b: nat :: FirstHit(layers, b) == Top(ws, b)
  }

  lemma NextResolves(ws: seq<Written>, layers: seq<Layer>, x: Written, base: Flat, ancestors: seq<Layer>)
    requires ResolvesTop(ws, layers)
    requires FlatMeaning(base) == x.blocks && ancestors == Stripped(layers, x.blocks.Keys)
    ensures ResolvesTop(ws + [x], [Layer(x.ident, base)] + ancestors)
  {
    hide Stripped, FirstHit;
    assert (ws + [x])[..|ws|] == ws;
    forall b: nat ensures FirstHit([Layer(x.ident, base)] + ancestors, b) == Top(ws + [x], b) {
      CloneResolves(x.ident, x.blocks, layers, base, ancestors, x.ident, b);
    }
  }

  /**
   Snapshots generation after generation, each clone opened from the bytes of the
   snapshot before it. It succeeds exactly when every intermediate count and name
   fits its field, and then a clone of the last one resolves every block to the
   topmost generation that wrote it: its volume, chunk, offset and SeqNum.
   */
  method CloneChain(crc: Checksum, version: nat, stride: nat, gens: seq<Generation>) returns (r: Result<seq<Layer>>)
    requires version < Capacity(2) && AllOk(gens, stride)
    ensures r.Ok? <==> AllStorable(AllWrote(gens, stride))
    ensures r.Ok? ==> LayersAre(AllWrote(gens, stride), r.value) && ResolvesTop(AllWrote(gens, stride), r.value)
  {
    hide Denote, WellFormed, Encodable, Layer.Ok, Stripped, Opened, Fitting, Storable, LayersAre, ResolvesTop, FirstHit,
        FlatMeaning;
    var layers: seq<Layer> := [];
    ghost var ws := AllWrote(gens, stride);
    ChainStarts();
    for n := 0 to |gens|
      invariant forall k :: 0 < k <= n ==> Storable(ws[..k])
      invariant LayersAre(ws[..n], layers) && ResolvesTop(ws[..n], layers)
    {
      var x := gens[n];
      LayersOk(ws[..n], layers);
      StorableIs(ws[..n], layers, ws[n]);
      assert ws[..n] + [ws[n]] == ws[..n + 1];
      var snap := CreateSnapshot(crc, x.own, stride, layers, version, x.timestamp);
      if snap.Err? {
        return Err(snap.reason);
      }
      var got := Opened(crc, snap.value.0, version, |layers| > 0, snap.value.1).value;
      OpenedOk(crc, snap.value.0, version, |layers| > 0, snap.value.1, x.ident);
      NextLayers(ws[..n], layers, ws[n], got.0, got.1);
      NextResolves(ws[..n], layers, ws[n], got.0, got.1);
      layers := [Layer(x.ident, got.0)] + got.1;
    }
    assert ws[..|gens|] == ws;
    r := Ok(layers);
  }

  lemma ChainStarts()
    ensures LayersAre([], []) && ResolvesTop([], [])
  {
  }

  lemma LayersOk(ws: seq<Written>, layers: seq<Layer>)
    requires LayersAre(ws, layers)
    ensures |layers| == |ws| && forall i :: 0 <= i < |layers| ==> layers[i].Ok()
  {
    forall i | 0 <= i < |layers| ensures layers[i].Ok() {
      assert LayerIs(ws, layers[i], |ws| - 1 - i);
    }
  }
}
