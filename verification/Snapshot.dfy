/**
 Snapshots of clones. A clone resolves a block through its own map, then its base
 map, then its ancestors; a snapshot writes its own blocks and flattens the rest
 into a trailing section, so that a clone of the snapshot needs no chain.
 */
module Snapshot {
  import opened Bytes
  import opened Extents
  import opened Checkpoint

  const FLAT_MAGIC: seq<byte> := [70, 76, 65, 84]
  const MAX_SOURCES := 255

  /** Whose chunks a layer points into. */
  datatype Identity = Identity(name: seq<byte>, uuid: seq<byte>, hash: seq<byte>)
  {
    ghost predicate Ok()
    {
      |uuid| == 4 && |hash| == 32
    }
  }

  datatype Layer = Layer(ident: Identity, blocks: Flat)
  {
    ghost predicate Ok()
    {
      ident.Ok() && forall b :: b in blocks ==> blocks[b].start == b && blocks[b].Fits()
    }
  }

  /** One source of a flat section: a layer's records that nothing above it covers. */
  datatype Group = Group(ident: Identity, records: seq<Record>)
  {
    ghost predicate Ok()
    {
      ident.Ok() && AllFit(records)
    }

    predicate Fits()
    {
      |ident.name| < Capacity(2) && |records| < Capacity(4)
    }

    function AsLayer(): Layer
    {
      Layer(ident, Collect(records))
    }
  }

  // ----- Resolving a block through layers -----

  /** The first layer that has the block, and where it puts it. */
  function FirstHit(layers: seq<Layer>, b: nat): Option<(Identity, Loc)>
  {
    if |layers| == 0 then None
    else if b in layers[0].blocks then Some((layers[0].ident, layers[0].blocks[b].Loc()))
    else FirstHit(layers[1..], b)
  }

  /** Each layer without the blocks in seen or in a layer above it. */
  function Stripped(layers: seq<Layer>, seen: set<nat>): (r: seq<Layer>)
    ensures |r| == |layers|
  {
    if |layers| == 0 then []
    else [layers[0].(blocks := layers[0].blocks - seen)] + Stripped(layers[1..], seen + layers[0].blocks.Keys)
  }

  lemma {:induction false} StrippedResolves(layers: seq<Layer>, seen: set<nat>, b: nat)
    ensures FirstHit(Stripped(layers, seen), b) == if b in seen then None else FirstHit(layers, b)
  {
    if |layers| != 0 {
      var s := Stripped(layers, seen);
      StrippedResolves(layers[1..], seen + layers[0].blocks.Keys, b);
      assert s[1..] == Stripped(layers[1..], seen + layers[0].blocks.Keys);
    }
  }

  // ----- The flat section's bytes -----

  function EncodeGroup(crc: Checksum, g: Group): seq<byte>
    requires g.Ok() && g.Fits()
  {
    PutUint(2, |g.ident.name|) + g.ident.name + g.ident.uuid + g.ident.hash
    + PutUint(4, |g.records|) + EncodeAll(crc, g.records)
  }

  ghost predicate AllOk(groups: seq<Group>)
  {
    forall i :: 0 <= i < |groups| ==> groups[i].Ok() && groups[i].Fits()
  }

  function EncodeGroups(crc: Checksum, groups: seq<Group>): seq<byte>
    requires AllOk(groups)
  {
    if |groups| == 0 then [] else EncodeGroup(crc, groups[0]) + EncodeGroups(crc, groups[1..])
  }

  function FlatBytes(crc: Checksum, groups: seq<Group>): seq<byte>
    requires AllOk(groups) && |groups| <= MAX_SOURCES
  {
    FLAT_MAGIC + [1] + [|groups|] + EncodeGroups(crc, groups)
  }

  /** Reads n records off the front. */
  function TakeRecords(crc: Checksum, data: seq<byte>, n: nat): (r: Result<(seq<Record>, seq<byte>)>)
    ensures r.Ok? ==> |r.value.0| == n && |r.value.1| <= |data| && AllFit(r.value.0)
  {
    if n == 0 then Ok(([], data))
    else if |data| < RECORD_SIZE then Err("truncated record")
    else
      match DecodeRecord(crc, data[..RECORD_SIZE])
      case Err(e) => Err(e)
      case Ok(first) =>
        match TakeRecords(crc, data[RECORD_SIZE..], n - 1)
        case Err(e) => Err(e)
        case Ok((more, rest)) => Ok(([first] + more, rest))
  }

  /** Reads one source off the front. */
  function TakeGroup(crc: Checksum, data: seq<byte>): Result<(Group, seq<byte>)>
  {
    if |data| < 2 then Err("truncated name length")
    else
      var n := GetUint(data[..2]);
      if 2 + n > |data| then Err("truncated name")
      else if 2 + n + 40 > |data| then Err("truncated identity")
      else
        var ident := Identity(data[2..2 + n], data[2 + n..6 + n], data[6 + n..38 + n]);
        match TakeRecords(crc, data[42 + n..], GetUint(data[38 + n..42 + n]))
        case Err(e) => Err(e)
        case Ok((records, rest)) => Ok((Group(ident, records), rest))
  }

  function TakeGroups(crc: Checksum, data: seq<byte>, n: nat): (r: Result<seq<Group>>)
    ensures r.Ok? ==> |r.value| == n
    decreases n
  {
    if n == 0 then Ok([])
    else
      match TakeGroup(crc, data)
      case Err(e) => Err(e)
      case Ok((g, rest)) =>
        match TakeGroups(crc, rest, n - 1)
        case Err(e) => Err(e)
        case Ok(more) => Ok([g] + more)
  }

  function ParsedFlat(crc: Checksum, data: seq<byte>): Result<seq<Group>>
  {
    if |data| < 6 then Err("flat section too short")
    else if data[..4] != FLAT_MAGIC then Err("flat section magic mismatch")
    else TakeGroups(crc, data[6..], data[5])
  }

  function LayersOf(groups: seq<Group>): (r: seq<Layer>)
    ensures |r| == |groups| && forall i :: 0 <= i < |groups| ==> r[i] == groups[i].AsLayer()
  {
    seq(|groups|, i requires 0 <= i < |groups| => groups[i].AsLayer())
  }

  // ----- Parsing what was built -----

  lemma {:induction false} EncodeAllFront(crc: Checksum, records: seq<Record>)
    requires AllFit(records) && |records| > 0
    ensures EncodeAll(crc, records) == EncodeRecord(crc, records[0]) + EncodeAll(crc, records[1..])
  {
    var n := |records| - 1;
    if n == 0 {
      assert records[..0] == [] && records[1..] == [];
    } else {
      EncodeAllFront(crc, records[..n]);
      assert records[..n][1..] == records[1..][..n - 1];
      assert records[1..][n - 1] == records[n];
      assert EncodeAll(crc, records[1..]) == EncodeAll(crc, records[1..][..n - 1]) + EncodeRecord(crc, records[n]);
    }
  }

  lemma {:induction false} TakeEncoded(crc: Checksum, records: seq<Record>, tail: seq<byte>)
    requires AllFit(records)
    ensures TakeRecords(crc, EncodeAll(crc, records) + tail, |records|) == Ok((records, tail))
  {
    var data := EncodeAll(crc, records) + tail;
    if |records| == 0 {
      assert data == tail;
    } else {
      EncodeAllFront(crc, records);
      var rest := EncodeAll(crc, records[1..]);
      RecordRoundTrip(crc, records[0]);
      hide EncodeAll, EncodeRecord, DecodeRecord;
      assert data[..RECORD_SIZE] == EncodeRecord(crc, records[0]);
      assert data[RECORD_SIZE..] == rest + tail;
      TakeEncoded(crc, records[1..], tail);
      assert [records[0]] + records[1..] == records;
    }
  }

  lemma TakeEncodedGroup(crc: Checksum, g: Group, tail: seq<byte>)
    requires g.Ok() && g.Fits()
    ensures TakeGroup(crc, EncodeGroup(crc, g) + tail) == Ok((g, tail))
  {
    hide TakeRecords, EncodeAll;
    var n, body := |g.ident.name|, EncodeAll(crc, g.records) + tail;
    var data := EncodeGroup(crc, g) + tail;
    assert data == PutUint(2, n) + g.ident.name + g.ident.uuid + g.ident.hash + PutUint(4, |g.records|) + body;
    assert data[..2] == PutUint(2, n) && data[2..2 + n] == g.ident.name && data[2 + n..6 + n] == g.ident.uuid;
    assert data[6 + n..38 + n] == g.ident.hash && data[38 + n..42 + n] == PutUint(4, |g.records|)
        && data[42 + n..] == body;
    GetPut(2, n);
    GetPut(4, |g.records|);
    TakeEncoded(crc, g.records, tail);
  }

  // ----- Parsing accepts nothing else -----

  lemma {:induction false} TakeRecordsExact(crc: Checksum, data: seq<byte>, n: nat, records: seq<Record>,
                                            rest: seq<byte>)
    ensures TakeRecords(crc, data, n) == Ok((records, rest))
       <==> |records| == n && AllFit(records) && data == EncodeAll(crc, records) + rest
    decreases n
  {
    if |records| == n && AllFit(records) && data == EncodeAll(crc, records) + rest {
      TakeEncoded(crc, records, rest);
    }
    if TakeRecords(crc, data, n) == Ok((records, rest)) {
      TakenRecords(crc, data, n, records, rest);
    }
  }

  lemma {:induction false} TakenRecords(crc: Checksum, data: seq<byte>, n: nat, records: seq<Record>, rest: seq<byte>)
    requires TakeRecords(crc, data, n) == Ok((records, rest))
    ensures AllFit(records) && data == EncodeAll(crc, records) + rest
    decreases n
  {
    hide EncodeRecord, DecodeRecord, EncodeAll, AllFit;
    if n == 0 {
      assert EncodeAll(crc, records) == [] by { NoRecords(crc, records); }
    } else {
      var first, behind := data[..RECORD_SIZE], data[RECORD_SIZE..];
      assert records[1..] == TakeRecords(crc, behind, n - 1).value.0;
      RecordCanonical(crc, first, records[0]);
      TakenRecords(crc, behind, n - 1, records[1..], rest);
      EncodeAllFront(crc, records);
      assert data == first + behind;
    }
  }

  lemma NoRecords(crc: Checksum, records: seq<Record>)
    requires |records| == 0
    ensures AllFit(records) && EncodeAll(crc, records) == []
  {
  }

  lemma TakeGroupExact(crc: Checksum, data: seq<byte>, g: Group, rest: seq<byte>)
    ensures TakeGroup(crc, data) == Ok((g, rest)) <==> g.Ok() && g.Fits() && data == EncodeGroup(crc, g) + rest
  {
    if g.Ok() && g.Fits() && data == EncodeGroup(crc, g) + rest {
      TakeEncodedGroup(crc, g, rest);
    }
    if TakeGroup(crc, data) == Ok((g, rest)) {
      TakenGroup(crc, data, g, rest);
    }
  }

  lemma TakenGroup(crc: Checksum, data: seq<byte>, g: Group, rest: seq<byte>)
    requires TakeGroup(crc, data) == Ok((g, rest))
    ensures g.Ok() && g.Fits() && data == EncodeGroup(crc, g) + rest
  {
    hide TakeRecords, EncodeAll, GetUint, Capacity, AllFit;
    var n := GetUint(data[..2]);
    PutGet(data[..2]);
    PutGet(data[38 + n..42 + n]);
    TakeRecordsExact(crc, data[42 + n..], GetUint(data[38 + n..42 + n]), g.records, rest);
    assert data == data[..2] + data[2..2 + n] + data[2 + n..6 + n] + data[6 + n..38 + n] + data[38 + n..42 + n]
                   + data[42 + n..];
  }

  lemma {:induction false} TakeGroupsExact(crc: Checksum, data: seq<byte>, n: nat, groups: seq<Group>)
    ensures TakeGroups(crc, data, n) == Ok(groups)
       <==> |groups| == n && AllOk(groups) && EncodeGroups(crc, groups) <= data
    decreases n
  {
    hide TakeGroup, EncodeGroup, Group.Ok, Group.Fits;
    if n > 0 {
      if TakeGroups(crc, data, n) == Ok(groups) {
        var rest := TakeGroup(crc, data).value.1;
        TakeGroupExact(crc, data, groups[0], rest);
        assert TakeGroups(crc, rest, n - 1).value == groups[1..];
        TakeGroupsExact(crc, rest, n - 1, groups[1..]);
        FirstAndRest(groups);
      }
      if |groups| == n && AllOk(groups) && EncodeGroups(crc, groups) <= data {
        var rest := data[|EncodeGroup(crc, groups[0])|..];
        assert data == EncodeGroup(crc, groups[0]) + rest;
        TakeGroupExact(crc, data, groups[0], rest);
        TakeGroupsExact(crc, rest, n - 1, groups[1..]);
        assert groups == [groups[0]] + groups[1..];
      }
    }
  }

  lemma FirstAndRest(groups: seq<Group>)
    requires |groups| > 0 && groups[0].Ok() && groups[0].Fits() && AllOk(groups[1..])
    ensures AllOk(groups)
  {
    assert forall i :: 0 < i < |groups| ==> groups[i] == groups[1..][i - 1];
  }

  /** The bytes are a flat section of these sources. Its version byte and whatever follows the last source are free. */
  ghost predicate IsFlat(crc: Checksum, data: seq<byte>, groups: seq<Group>)
  {
    && |data| >= 6 && Spells(data[..4], "FLAT") && data[5] == |groups|
    && AllOk(groups) && EncodeGroups(crc, groups) <= data[6..]
  }

  lemma FlatExact(crc: Checksum, data: seq<byte>, groups: seq<Group>)
    ensures ParsedFlat(crc, data) == Ok(groups) <==> IsFlat(crc, data, groups)
  {
    hide TakeGroups, EncodeGroups, AllOk;
    if |data| >= 6 {
      assert Spells(data[..4], "FLAT") <==> data[..4] == FLAT_MAGIC;
      TakeGroupsExact(crc, data[6..], data[5], groups);
    }
  }

  lemma FlatIs(crc: Checksum, groups: seq<Group>)
    requires AllOk(groups) && |groups| <= MAX_SOURCES
    ensures var flat := FlatBytes(crc, groups);
            IsFlat(crc, flat, groups) && flat[4] == 1 && |flat| == 6 + |EncodeGroups(crc, groups)|
  {
    hide EncodeGroups, AllOk;
    assert FlatBytes(crc, groups)[6..] == EncodeGroups(crc, groups) && FlatBytes(crc, groups)[..4] == FLAT_MAGIC;
  }

  /** Parsing a built section returns its sources. */
  lemma FlatRoundTrip(crc: Checksum, groups: seq<Group>)
    requires AllOk(groups) && |groups| <= MAX_SOURCES
    ensures ParsedFlat(crc, FlatBytes(crc, groups)) == Ok(groups)
  {
    hide ParsedFlat, IsFlat, FlatBytes;
    FlatIs(crc, groups);
    FlatExact(crc, FlatBytes(crc, groups), groups);
  }

  // ----- Building the section -----

  /** The group holds the layer's records that are not seen yet. */
  ghost predicate GroupOf(g: Group, layer: Layer, seen: set<nat>)
  {
    g.ident == layer.ident && Collect(g.records) == layer.blocks - seen && AllFit(g.records)
        && |g.records| == |(layer.blocks - seen).Keys|
  }

  /** records are those of the taken blocks that were not seen before. */
  ghost predicate Taken(layer: Layer, seen: set<nat>, taken: set<nat>, records: seq<Record>)
  {
    && AllFit(records) && |records| == |taken - seen| && taken <= layer.blocks.Keys
    && Collect(records).Keys == taken - seen
    && forall b :: b in Collect(records) ==> Collect(records)[b] == layer.blocks[b]
  }

  lemma TakenSkips(layer: Layer, seen: set<nat>, taken: set<nat>, records: seq<Record>, k: nat)
    requires Taken(layer, seen, taken, records) && k in layer.blocks && k in seen
    ensures Taken(layer, seen, taken + {k}, records)
  {
    hide Collect;
    assert taken + {k} - seen == taken - seen;
  }

  lemma TakenGrows(layer: Layer, seen: set<nat>, taken: set<nat>, records: seq<Record>, k: nat)
    requires layer.Ok() && Taken(layer, seen, taken, records) && k in layer.blocks && k !in taken && k !in seen
    ensures Taken(layer, seen, taken + {k}, records + [layer.blocks[k]])
  {
    var x := layer.blocks[k];
    assert x.start == k && x.Fits();
    hide Collect, Layer.Ok, Record.Fits;
    assert taken + {k} - seen == (taken - seen) + {k};
    CollectOne(records, x);
    assert Collect(records + [x]).Keys == Collect(records).Keys + {k};
  }

  lemma TakenNext(layer: Layer, seen: set<nat>, taken: set<nat>, records: seq<Record>, k: nat)
    requires layer.Ok() && Taken(layer, seen, taken, records) && k in layer.blocks && k !in taken
    ensures Taken(layer, seen, taken + {k}, if k in seen then records else records + [layer.blocks[k]])
  {
    hide Taken;
    if k in seen {
      TakenSkips(layer, seen, taken, records, k);
    } else {
      TakenGrows(layer, seen, taken, records, k);
    }
  }

  lemma TakenAll(layer: Layer, seen: set<nat>, records: seq<Record>)
    requires Taken(layer, seen, layer.blocks.Keys, records)
    ensures GroupOf(Group(layer.ident, records), layer, seen)
  {
    assert (layer.blocks - seen).Keys == layer.blocks.Keys - seen;
  }

  /** Copies a layer's unseen records, in whatever order the map yields them. */
  method CollectGroup(layer: Layer, seen: set<nat>) returns (g: Group, now: set<nat>)
    requires layer.Ok()
    ensures GroupOf(g, layer, seen) && now == seen + layer.blocks.Keys
  {
    hide Taken, GroupOf, Layer.Ok, Collect, Record.Fits;
    var records: seq<Record> := [];
    now := seen;
    var keys := layer.blocks.Keys;
    var todo := keys;
    ghost var taken: set<nat> := {};
    NothingTaken(layer, seen);
    while todo != {}
      invariant todo <= keys && taken <= keys && forall b :: b in keys ==> (b in taken <==> b !in todo)
      invariant forall b :: b in now <==> b in seen || b in taken
      invariant Taken(layer, seen, taken, records)
    {
      var k :| k in todo;
      TakenNext(layer, seen, taken, records, k);
      if k !in now {
        records := records + [layer.blocks[k]];
        now := now + {k};
      }
      taken, todo := taken + {k}, todo - {k};
    }
    assert taken == keys;
    TakenAll(layer, seen, records);
    g := Group(layer.ident, records);
  }

  lemma NothingTaken(layer: Layer, seen: set<nat>)
    ensures Taken(layer, seen, {}, [])
  {
  }

  /** The blocks of the first n layers. */
  function SeenIn(layers: seq<Layer>, n: nat, seen: set<nat>): set<nat>
    requires n <= |layers|
  {
    if n == 0 then seen else SeenIn(layers, n - 1, seen) + layers[n - 1].blocks.Keys
  }

  lemma {:induction false} StrippedAt(layers: seq<Layer>, seen: set<nat>, n: nat)
    requires n < |layers|
    ensures Stripped(layers, seen)[n] == layers[n].(blocks := layers[n].blocks - SeenIn(layers, n, seen))
  {
    if n != 0 {
      StrippedAt(layers[1..], seen + layers[0].blocks.Keys, n - 1);
      SeenShift(layers, n, seen);
    }
  }

  lemma {:induction false} SeenShift(layers: seq<Layer>, n: nat, seen: set<nat>)
    requires 0 < n <= |layers|
    ensures SeenIn(layers, n, seen) == SeenIn(layers[1..], n - 1, seen + layers[0].blocks.Keys)
  {
    if n > 1 {
      SeenShift(layers, n - 1, seen);
    }
  }

  ghost predicate GroupAt(layers: seq<Layer>, own: set<nat>, i: nat, g: Group)
  {
    i < |layers| && GroupOf(g, layers[i], SeenIn(layers, i, own))
  }

  /** Groups the layers and checks that every length fits its field. */
  method BuildFlatSection(crc: Checksum, own: set<nat>, layers: seq<Layer>)
    returns (r: Result<seq<byte>>, ghost groups: seq<Group>)
    requires forall i :: 0 <= i < |layers| ==> layers[i].Ok()
    ensures |groups| == |layers| && LayersOf(groups) == Stripped(layers, own)
    ensures r.Ok? <==> |layers| <= MAX_SOURCES && forall i :: 0 <= i < |layers| ==> Fitting(layers, own, i)
    ensures r.Ok? ==> AllOk(groups) && |groups| <= MAX_SOURCES && r.value == FlatBytes(crc, groups)
  {
    hide GroupOf, LayersOf, Stripped, Layer.Ok, FlatBytes, Fitting, Group.Fits, Group.Ok;
    var sources: seq<Group> := [];
    var seen := own;
    for i := 0 to |layers|
      invariant |sources| == i && seen == SeenIn(layers, i, own)
      invariant forall k :: 0 <= k < i ==> GroupAt(layers, own, k, sources[k])
    {
      var g;
      g, seen := CollectGroup(layers[i], seen);
      sources := sources + [g];
    }
    groups := sources;
    GroupsAreStripped(layers, own, sources);
    if |sources| > MAX_SOURCES {
      return Err("too many ancestor sources"), groups;
    }
    var fits := CheckGroups(sources);
    GroupsFit(layers, own, sources);
    if !fits {
      return Err("source too large"), groups;
    }
    r := Ok(FlatBytes(crc, sources));
  }

  lemma GroupsFit(layers: seq<Layer>, own: set<nat>, groups: seq<Group>)
    requires |groups| == |layers| && forall i :: 0 <= i < |layers| ==>
              layers[i].Ok() && GroupAt(layers, own, i, groups[i])
    ensures forall i :: 0 <= i < |layers| ==> groups[i].Ok() && (groups[i].Fits() <==> Fitting(layers, own, i))
  {
    forall i | 0 <= i < |layers| ensures groups[i].Ok() && (groups[i].Fits() <==> Fitting(layers, own, i)) {
      assert layers[i].Ok() && GroupAt(layers, own, i, groups[i]);
    }
  }

  /** Layer i's name and record count fit their fields. */
  ghost predicate Fitting(layers: seq<Layer>, own: set<nat>, i: nat)
    requires i < |layers|
  {
    |layers[i].ident.name| < Capacity(2) && |(layers[i].blocks - SeenIn(layers, i, own)).Keys| < Capacity(4)
  }

  method CheckGroups(groups: seq<Group>) returns (ok: bool)
    ensures ok <==> forall i :: 0 <= i < |groups| ==> groups[i].Fits()
  {
    for i := 0 to |groups|
      invariant forall k :: 0 <= k < i ==> groups[k].Fits()
    {
      if !groups[i].Fits() {
        return false;
      }
    }
    ok := true;
  }

  lemma GroupsAreStripped(layers: seq<Layer>, own: set<nat>, groups: seq<Group>)
    requires |groups| == |layers| && forall k :: 0 <= k < |groups| ==> GroupAt(layers, own, k, groups[k])
    ensures LayersOf(groups) == Stripped(layers, own)
  {
    forall i | 0 <= i < |groups| ensures LayersOf(groups)[i] == Stripped(layers, own)[i] {
      assert GroupAt(layers, own, i, groups[i]);
      StrippedAt(layers, own, i);
    }
  }

  // ----- Parsing the section -----

  /** What reading n records from offset on yields, after the ones already read. */
  ghost predicate RecordsFrom(crc: Checksum, data: seq<byte>, start: nat, n: nat, got: seq<Record>, offset: nat)
    requires start <= offset <= |data| && |got| <= n
  {
    TakeRecords(crc, data[start..], n) ==
      match TakeRecords(crc, data[offset..], n - |got|)
      case Ok((more, rest)) => Ok((got + more, rest))
      case Err(e) => Err(e)
  }

  lemma NextRecord(crc: Checksum, data: seq<byte>, start: nat, n: nat, got: seq<Record>, offset: nat, r: Record)
    requires start <= offset && offset + RECORD_SIZE <= |data| && |got| < n
    requires RecordsFrom(crc, data, start, n, got, offset)
    requires DecodeRecord(crc, data[offset..offset + RECORD_SIZE]) == Ok(r)
    ensures RecordsFrom(crc, data, start, n, got + [r], offset + RECORD_SIZE)
  {
    assert data[offset..][..RECORD_SIZE] == data[offset..offset + RECORD_SIZE];
    assert data[offset..][RECORD_SIZE..] == data[offset + RECORD_SIZE..];
    match TakeRecords(crc, data[offset + RECORD_SIZE..], n - |got| - 1)
    case Err(_) =>
    case Ok((more, rest)) =>
      assert got + ([r] + more) == (got + [r]) + more;
  }

  lemma BadRecord(crc: Checksum, data: seq<byte>, start: nat, n: nat, got: seq<Record>, offset: nat)
    requires start <= offset <= |data| && |got| < n && RecordsFrom(crc, data, start, n, got, offset)
    ensures offset + RECORD_SIZE > |data| ==> TakeRecords(crc, data[start..], n) == Err("truncated record")
    ensures offset + RECORD_SIZE <= |data| && DecodeRecord(crc, data[offset..offset + RECORD_SIZE]).Err? ==>
              TakeRecords(crc, data[start..], n) == Err(DecodeRecord(crc, data[offset..offset + RECORD_SIZE]).reason)
  {
    if offset + RECORD_SIZE <= |data| {
      assert data[offset..][..RECORD_SIZE] == data[offset..offset + RECORD_SIZE];
    }
  }

  /** Reads n records into a flat map, advancing an offset. */
  method ReadRecords(crc: Checksum, data: seq<byte>, start: nat, n: nat)
    returns (r: Result<(Flat, nat)>, ghost got: seq<Record>)
    requires start <= |data|
    ensures TakeRecords(crc, data[start..], n).Err? ==> r == Err(TakeRecords(crc, data[start..], n).reason)
    ensures TakeRecords(crc, data[start..], n).Ok? ==>
              && r.Ok? && got == TakeRecords(crc, data[start..], n).value.0 && r.value.0 == Collect(got)
              && start <= r.value.1 <= |data| && TakeRecords(crc, data[start..], n).value.1 == data[r.value.1..]
  {
    hide TakeRecords;
    var offset, bm: Flat := start, map[];
    got := [];
    RecordsStart(crc, data, start, n);
    for j := 0 to n
      invariant start <= offset <= |data| && |got| == j && bm == Collect(got)
      invariant RecordsFrom(crc, data, start, n, got, offset)
    {
      BadRecord(crc, data, start, n, got, offset);
      if offset + RECORD_SIZE > |data| {
        return Err("truncated record"), got;
      }
      match DecodeRecord(crc, data[offset..offset + RECORD_SIZE])
      case Err(e) =>
        return Err(e), got;
      case Ok(x) =>
        NextRecord(crc, data, start, n, got, offset, x);
        CollectOne(got, x);
        bm, got, offset := bm[x.start := x], got + [x], offset + RECORD_SIZE;
    }
    RecordsEnd(crc, data, start, n, got, offset);
    r := Ok((bm, offset));
  }

  lemma RecordsStart(crc: Checksum, data: seq<byte>, start: nat, n: nat)
    requires start <= |data|
    ensures RecordsFrom(crc, data, start, n, [], start)
  {
    match TakeRecords(crc, data[start..], n)
    case Err(_) =>
    case Ok((more, rest)) =>
      assert [] + more == more;
  }

  lemma RecordsEnd(crc: Checksum, data: seq<byte>, start: nat, n: nat, got: seq<Record>, offset: nat)
    requires start <= offset <= |data| && |got| == n && RecordsFrom(crc, data, start, n, got, offset)
    ensures TakeRecords(crc, data[start..], n) == Ok((got, data[offset..]))
  {
    assert got + [] == got;
  }

  /** Decodes a flat section: the layers of the sources it lists. */
  method ParseFlatSection(crc: Checksum, data: seq<byte>) returns (r: Result<seq<Layer>>)
    ensures r == match ParsedFlat(crc, data)
                 case Ok(groups) => Ok(LayersOf(groups))
                 case Err(e) => Err(e)
  {
    hide TakeGroup, TakeGroups, LayersOf;
    if |data| < 6 {
      return Err("flat section too short");
    }
    if data[..4] != FLAT_MAGIC {
      return Err("flat section magic mismatch");
    }
    var n, offset, layers: seq<Layer> := data[5], 6, [];
    ghost var groups: seq<Group> := [];
    GroupsStart(crc, data, n);
    for i := 0 to n
      invariant 6 <= offset <= |data| && |groups| == i && layers == LayersOf(groups)
      invariant GroupsFrom(crc, data, n, groups, offset)
    {
      ghost var g;
      var one;
      one, g := ReadGroup(crc, data, offset);
      NextGroup(crc, data, n, groups, offset);
      if one.Err? {
        return Err(one.reason);
      }
      LayersGrow(groups, g);
      layers, groups, offset := layers + [one.value.0], groups + [g], one.value.1;
    }
    GroupsEnd(crc, data, n, groups, offset);
    r := Ok(layers);
  }

  ghost predicate GroupsFrom(crc: Checksum, data: seq<byte>, n: nat, groups: seq<Group>, offset: nat)
    requires 6 <= offset <= |data| && |groups| <= n
  {
    TakeGroups(crc, data[6..], n) == Prepend(groups, TakeGroups(crc, data[offset..], n - |groups|))
  }

  lemma GroupsStart(crc: Checksum, data: seq<byte>, n: nat)
    requires 6 <= |data|
    ensures GroupsFrom(crc, data, n, [], 6) && LayersOf([]) == []
  {
    match TakeGroups(crc, data[6..], n)
    case Err(_) =>
    case Ok(more) =>
      assert [] + more == more;
  }

  lemma GroupsEnd(crc: Checksum, data: seq<byte>, n: nat, groups: seq<Group>, offset: nat)
    requires 6 <= offset <= |data| && |groups| == n && GroupsFrom(crc, data, n, groups, offset)
    ensures TakeGroups(crc, data[6..], n) == Ok(groups)
  {
    assert groups + [] == groups;
  }

  lemma NextGroup(crc: Checksum, data: seq<byte>, n: nat, groups: seq<Group>, offset: nat)
    requires 6 <= offset <= |data| && |groups| < n && GroupsFrom(crc, data, n, groups, offset)
    ensures TakeGroup(crc, data[offset..]).Err? ==>
              TakeGroups(crc, data[6..], n) == Err(TakeGroup(crc, data[offset..]).reason)
    ensures TakeGroup(crc, data[offset..]).Ok? ==>
              var (g, rest) := TakeGroup(crc, data[offset..]).value;
              TakeGroups(crc, data[6..], n) == Prepend(groups + [g], TakeGroups(crc, rest, n - |groups| - 1))
  {
    hide TakeGroup;
    var first := TakeGroup(crc, data[offset..]);
    if first.Ok? {
      var later := TakeGroups(crc, first.value.1, n - |groups| - 1);
      if later.Ok? {
        assert groups + ([first.value.0] + later.value) == (groups + [first.value.0]) + later.value;
      }
    }
  }

  lemma LayersGrow(groups: seq<Group>, g: Group)
    ensures LayersOf(groups + [g]) == LayersOf(groups) + [g.AsLayer()]
  {
  }

  /** Reads one source from an offset on. */
  method ReadGroup(crc: Checksum, data: seq<byte>, start: nat) returns (r: Result<(Layer, nat)>, ghost g: Group)
    requires start <= |data|
    ensures TakeGroup(crc, data[start..]).Err? ==> r == Err(TakeGroup(crc, data[start..]).reason)
    ensures TakeGroup(crc, data[start..]).Ok? ==>
              && r.Ok? && g == TakeGroup(crc, data[start..]).value.0 && r.value.0 == g.AsLayer()
              && start <= r.value.1 <= |data| && TakeGroup(crc, data[start..]).value.1 == data[r.value.1..]
  {
    hide TakeRecords, Collect;
    g := Group(Identity([], [], []), []);
    ghost var tail := data[start..];
    if start + 2 > |data| {
      return Err("truncated name length"), g;
    }
    assert data[start..start + 2] == tail[..2];
    var n := GetUint(data[start..start + 2]);
    if start + 2 + n > |data| {
      return Err("truncated name"), g;
    }
    if start + 2 + n + 40 > |data| {
      return Err("truncated identity"), g;
    }
    var at := start + 2 + n;
    var ident := Identity(data[start + 2..at], data[at..at + 4], data[at + 4..at + 36]);
    var count := GetUint(data[at + 36..at + 40]);
    assert data[start + 2..at] == tail[2..2 + n] && data[at..at + 4] == tail[2 + n..6 + n]
        && data[at + 4..at + 36] == tail[6 + n..38 + n];
    assert data[at + 36..at + 40] == tail[38 + n..42 + n] && data[at + 40..] == tail[42 + n..];
    ghost var records;
    var body;
    body, records := ReadRecords(crc, data, at + 40, count);
    if body.Err? {
      return Err(body.reason), g;
    }
    g := Group(ident, records);
    r := Ok((Layer(ident, body.value.0), body.value.1));
  }

  // ----- Taking and opening a snapshot -----

  const MAX_INT := 0x7FFF_FFFF_FFFF_FFFF

  /** What opening a snapshot reads: its own blocks and the layers below them. */
  function Opened(crc: Checksum, raw: seq<byte>, version: nat, hasFlat: bool, blockCount: nat)
    : Result<(Flat, seq<Layer>)>
  {
    if |raw| < HEADER_SIZE then Err("snapshot checkpoint too small")
    else if raw[..4] != [86, 66, 87, 66] then Err("magic mismatch")
    else if GetUint(raw[4..6]) != version then Err("version mismatch")
    else if hasFlat && blockCount > MAX_INT / RECORD_SIZE then Err("block count overflows")
    else
      OpenedSections(crc, raw, if hasFlat then RECORD_SIZE * blockCount else |raw| - HEADER_SIZE, hasFlat, blockCount)
  }

  /** The own-blocks section is size bytes long, the flat section is what follows. */
  function OpenedSections(crc: Checksum, raw: seq<byte>, size: nat, hasFlat: bool, blockCount: nat)
    : Result<(Flat, seq<Layer>)>
  {
    if size % RECORD_SIZE != 0 then Err("trailing bytes")
    else if HEADER_SIZE + size > |raw| then Err("slice bounds out of range")
    else
      var end := HEADER_SIZE + size;
      match DecodeAll(crc, raw[HEADER_SIZE..end], size / RECORD_SIZE)
      case Err(e) => Err(e)
      case Ok(records) =>
        var flat := Collect(records);
        if blockCount > 0 && |flat| != blockCount then Err("block count mismatch")
        else if !hasFlat then Ok((flat, []))
        else
          match ParsedFlat(crc, raw[end..])
          case Err(e) => Err(e)
          case Ok(groups) => Ok((flat, LayersOf(groups)))
  }

  lemma CollectOk(ident: Identity, records: seq<Record>)
    requires ident.Ok() && AllFit(records)
    ensures Layer(ident, Collect(records)).Ok()
  {
    forall b | b in Collect(records) ensures Collect(records)[b].Fits() {
      CollectFrom(records, b);
    }
  }

  lemma {:induction false} TakenGroupsOk(crc: Checksum, data: seq<byte>, n: nat, i: nat)
    requires TakeGroups(crc, data, n).Ok? && i < n
    ensures TakeGroups(crc, data, n).value[i].Ok()
    decreases n
  {
    if i != 0 {
      TakenGroupsOk(crc, TakeGroup(crc, data).value.1, n - 1, i - 1);
    }
  }

  /** Whatever bytes a snapshot is opened from, its layers are fit to be snapshotted again. */
  lemma OpenedOk(crc: Checksum, raw: seq<byte>, version: nat, hasFlat: bool, blockCount: nat, ident: Identity)
    requires ident.Ok() && Opened(crc, raw, version, hasFlat, blockCount).Ok?
    ensures var (base, ancestors) := Opened(crc, raw, version, hasFlat, blockCount).value;
            Layer(ident, base).Ok() && forall i :: 0 <= i < |ancestors| ==> ancestors[i].Ok()
  {
    hide DecodeAll, Collect, TakeGroups, Layer.Ok, Identity.Ok;
    var size := if hasFlat then RECORD_SIZE * blockCount else |raw| - HEADER_SIZE;
    var end := HEADER_SIZE + size;
    CollectOk(ident, DecodeAll(crc, raw[HEADER_SIZE..end], size / RECORD_SIZE).value);
    if hasFlat {
      var n, data := raw[end..][5], raw[end..][6..];
      var groups := TakeGroups(crc, data, n).value;
      forall i | 0 <= i < |groups| ensures groups[i].AsLayer().Ok() {
        TakenGroupsOk(crc, data, n, i);
        CollectOk(groups[i].ident, groups[i].records);
      }
    }
  }

  ghost function BlocksOf(records: seq<Record>): set<nat>
  {
    set r | r in records :: r.start
  }

  /**
   The bytes of a snapshot with these records and sources. Without a flat section
   the records fill the file; with one their number is the block count.
   */
  ghost predicate SnapshotOf(crc: Checksum, raw: seq<byte>, version: nat, hasFlat: bool, blockCount: nat,
                             records: seq<Record>, groups: seq<Group>)
  {
    && HasHeader(raw, version) && AllFit(records) && (blockCount > 0 ==> |BlocksOf(records)| == blockCount)
    && (if !hasFlat then raw[HEADER_SIZE..] == EncodeAll(crc, records) && groups == []
        else
          var own := EncodeAll(crc, records);
          && |records| == blockCount && |own| < 0x8000_0000_0000_0000
          && own <= raw[HEADER_SIZE..] && IsFlat(crc, raw[HEADER_SIZE + |own|..], groups))
  }

  /** Each source as a layer: its blocks with their last records. */
  ghost predicate LayersSay(groups: seq<Group>, layers: seq<Layer>)
  {
    && |layers| == |groups|
    && forall i :: 0 <= i < |groups| ==>
         layers[i].ident == groups[i].ident && Says(groups[i].records, layers[i].blocks)
  }

  lemma LayersExact(groups: seq<Group>, layers: seq<Layer>)
    ensures LayersSay(groups, layers) <==> layers == LayersOf(groups)
  {
    hide Collect, Says;
    forall i | 0 <= i < |groups| && i < |layers|
      ensures layers[i].ident == groups[i].ident && Says(groups[i].records, layers[i].blocks)
         <==> layers[i] == groups[i].AsLayer()
    {
      CollectExact(groups[i].records, layers[i].blocks);
    }
  }

  lemma BlocksCollected(records: seq<Record>)
    ensures |Collect(records)| == |BlocksOf(records)|
  {
    CollectSays(records);
    hide Collect;
    var flat := Collect(records);
    forall b | b in flat ensures b in BlocksOf(records) {
      var i :| LastFor(records, i, b) && flat[b] == records[i];
      assert records[i] in records;
    }
    assert flat.Keys == BlocksOf(records);
    assert |flat| == |flat.Keys|;
  }

  ghost predicate OpensTo(crc: Checksum, raw: seq<byte>, version: nat, hasFlat: bool, blockCount: nat,
                          records: seq<Record>, groups: seq<Group>, own: Flat, layers: seq<Layer>)
  {
    && SnapshotOf(crc, raw, version, hasFlat, blockCount, records, groups)
    && Says(records, own) && LayersSay(groups, layers)
  }

  lemma OpenedFrom(crc: Checksum, raw: seq<byte>, version: nat, hasFlat: bool, blockCount: nat, own: Flat,
                   layers: seq<Layer>)
    returns (records: seq<Record>, groups: seq<Group>)
    requires Opened(crc, raw, version, hasFlat, blockCount) == Ok((own, layers))
    ensures OpensTo(crc, raw, version, hasFlat, blockCount, records, groups, own, layers)
  {
    hide DecodeAll, EncodeAll, ParsedFlat, Collect, Says, LayersSay, LayersOf, HasHeader, IsFlat, AllFit, GetUint,
        BlocksOf;
    HeaderCanonical(raw, version);
    var size := if hasFlat then RECORD_SIZE * blockCount else |raw| - HEADER_SIZE;
    var end, n := HEADER_SIZE + size, size / RECORD_SIZE;
    records := DecodeAll(crc, raw[HEADER_SIZE..end], n).value;
    DecodeAllExact(crc, raw[HEADER_SIZE..end], n, records);
    CollectExact(records, own);
    BlocksCollected(records);
    groups := if hasFlat then ParsedFlat(crc, raw[end..]).value else [];
    FlatExact(crc, raw[end..], groups);
    LayersExact(groups, layers);
    NoLayers();
    assert raw[HEADER_SIZE..][..size] == raw[HEADER_SIZE..end];
  }

  lemma NoLayers()
    ensures LayersOf([]) == []
  {
  }

  lemma OpenedIf(crc: Checksum, raw: seq<byte>, version: nat, hasFlat: bool, blockCount: nat, own: Flat,
                 layers: seq<Layer>, records: seq<Record>, groups: seq<Group>)
    requires OpensTo(crc, raw, version, hasFlat, blockCount, records, groups, own, layers)
    ensures Opened(crc, raw, version, hasFlat, blockCount) == Ok((own, layers))
  {
    hide DecodeAll, EncodeAll, ParsedFlat, Collect, Says, LayersSay, LayersOf, HasHeader, IsFlat, AllFit, GetUint,
        BlocksOf;
    assert |raw| >= HEADER_SIZE by { LongEnough(raw, version); }
    HeaderCanonical(raw, version);
    var size := |EncodeAll(crc, records)|;
    var end := HEADER_SIZE + size;
    WholeRecords(|records|);
    assert raw[HEADER_SIZE..end] == raw[HEADER_SIZE..][..size];
    DecodeAllExact(crc, raw[HEADER_SIZE..end], |records|, records);
    CollectExact(records, own);
    BlocksCollected(records);
    FlatExact(crc, raw[end..], groups);
    LayersExact(groups, layers);
    NoLayers();
  }

  lemma LongEnough(raw: seq<byte>, version: nat)
    requires HasHeader(raw, version)
    ensures |raw| >= HEADER_SIZE
  {
  }

  /** Opening succeeds exactly on the bytes of a snapshot, and with what its records and sources say. */
  lemma OpenedExact(crc: Checksum, raw: seq<byte>, version: nat, hasFlat: bool, blockCount: nat, own: Flat,
                    layers: seq<Layer>)
    ensures Opened(crc, raw, version, hasFlat, blockCount) == Ok((own, layers))
       <==> exists records, groups :: OpensTo(crc, raw, version, hasFlat, blockCount, records, groups, own, layers)
  {
    hide Opened, OpensTo;
    if Opened(crc, raw, version, hasFlat, blockCount) == Ok((own, layers)) {
      var records, groups := OpenedFrom(crc, raw, version, hasFlat, blockCount, own, layers);
    }
    if records, groups :| OpensTo(crc, raw, version, hasFlat, blockCount, records, groups, own, layers) {
      OpenedIf(crc, raw, version, hasFlat, blockCount, own, layers, records, groups);
    }
  }

  /** Nothing follows the last source. */
  ghost predicate Whole(crc: Checksum, raw: seq<byte>, hasFlat: bool, records: seq<Record>, groups: seq<Group>)
  {
    hasFlat ==> AllOk(groups) && |raw| == HEADER_SIZE + RECORD_SIZE * |records| + 6 + |EncodeGroups(crc, groups)|
  }

  lemma FewBlocks(records: seq<Record>)
    ensures |BlocksOf(records)| <= |records|
  {
    BlocksCollected(records);
    CollectSize(records);
    assert |Collect(records)| == |Collect(records).Keys|;
  }

  lemma CutOwn(crc: Checksum, raw: seq<byte>, version: nat, records: seq<Record>, groups: seq<Group>, cut: nat,
               rs: seq<Record>, gs: seq<Group>)
    requires SnapshotOf(crc, raw, version, false, |records|, records, groups) && cut < |raw|
    ensures !SnapshotOf(crc, raw[..cut], version, false, |records|, rs, gs)
  {
    hide EncodeAll, HasHeader, AllFit;
    if SnapshotOf(crc, raw[..cut], version, false, |records|, rs, gs) {
      LongEnough(raw[..cut], version);
      FewBlocks(rs);
      assert false;
    }
  }

  lemma FlatGrows(crc: Checksum, data: seq<byte>, n: nat, groups: seq<Group>)
    requires n <= |data| && IsFlat(crc, data[..n], groups)
    ensures IsFlat(crc, data, groups) && n >= 6 + |EncodeGroups(crc, groups)|
  {
    hide EncodeGroups, AllOk;
    assert data[..n][..4] == data[..4];
    assert data[..n][6..] <= data[6..];
  }

  lemma CutFlat(crc: Checksum, raw: seq<byte>, version: nat, records: seq<Record>, groups: seq<Group>, cut: nat,
                rs: seq<Record>, gs: seq<Group>)
    requires SnapshotOf(crc, raw, version, true, |records|, records, groups) && Whole(crc, raw, true, records, groups)
    requires cut < |raw|
    ensures !SnapshotOf(crc, raw[..cut], version, true, |records|, rs, gs)
  {
    hide EncodeAll, EncodeGroups, HasHeader, AllFit, AllOk, IsFlat, BlocksOf;
    if SnapshotOf(crc, raw[..cut], version, true, |records|, rs, gs) {
      LongEnough(raw[..cut], version);
      var own := EncodeAll(crc, rs);
      var end := HEADER_SIZE + |own|;
      assert raw[HEADER_SIZE..end] == raw[..cut][HEADER_SIZE..][..|own|] == own;
      assert raw[HEADER_SIZE..end] == raw[HEADER_SIZE..][..|own|] == EncodeAll(crc, records);
      DecodeAllExact(crc, own, |records|, rs);
      DecodeAllExact(crc, own, |records|, records);
      assert raw[..cut][end..] == raw[end..][..cut - end];
      FlatGrows(crc, raw[end..], cut - end, gs);
      FlatExact(crc, raw[end..], gs);
      FlatExact(crc, raw[end..], groups);
      assert false;
    }
  }

  /** A snapshot that lost any of its end, even at a record boundary, does not open under its own count. */
  lemma CutNeverOpens(crc: Checksum, raw: seq<byte>, version: nat, hasFlat: bool, records: seq<Record>,
                      groups: seq<Group>, cut: nat)
    requires SnapshotOf(crc, raw, version, hasFlat, |records|, records, groups)
    requires Whole(crc, raw, hasFlat, records, groups) && cut < |raw|
    ensures Opened(crc, raw[..cut], version, hasFlat, |records|).Err?
  {
    hide Opened, SnapshotOf, Whole;
    var r := Opened(crc, raw[..cut], version, hasFlat, |records|);
    if r.Ok? {
      var rs, gs := OpenedFrom(crc, raw[..cut], version, hasFlat, |records|, r.value.0, r.value.1);
      if hasFlat {
        CutFlat(crc, raw, version, records, groups, cut, rs, gs);
      } else {
        CutOwn(crc, raw, version, records, groups, cut, rs, gs);
      }
    }
  }

  lemma AllCutsFail(crc: Checksum, raw: seq<byte>, version: nat, hasFlat: bool, records: seq<Record>,
                    groups: seq<Group>)
    requires SnapshotOf(crc, raw, version, hasFlat, |records|, records, groups)
    requires Whole(crc, raw, hasFlat, records, groups)
    ensures forall cut :: 0 <= cut < |raw| ==> Opened(crc, raw[..cut], version, hasFlat, |records|).Err?
  {
    hide Opened, SnapshotOf, Whole;
    forall cut | 0 <= cut < |raw| ensures Opened(crc, raw[..cut], version, hasFlat, |records|).Err? {
      CutNeverOpens(crc, raw, version, hasFlat, records, groups, cut);
    }
  }

  lemma BuiltHeader(version: nat, timestamp: nat, body: seq<byte>)
    requires version < Capacity(2) && timestamp < Capacity(8)
    ensures var raw := Header(version, timestamp) + body; HasHeader(raw, version) && raw[HEADER_SIZE..] == body
  {
    var raw := Header(version, timestamp) + body;
    assert raw[..HEADER_SIZE] == Header(version, timestamp);
  }

  lemma CollectedBlocks(records: seq<Record>)
    requires |Collect(records)| == |records|
    ensures |BlocksOf(records)| == |records|
  {
    BlocksCollected(records);
  }

  /** A snapshot of a volume without a base is its own blocks' records behind a header. */
  lemma PlainBuilt(crc: Checksum, version: nat, timestamp: nat, records: seq<Record>)
    requires version < Capacity(2) && timestamp < Capacity(8) && AllFit(records) && |Collect(records)| == |records|
    ensures var raw := Header(version, timestamp) + EncodeAll(crc, records);
            SnapshotOf(crc, raw, version, false, |records|, records, [])
  {
    hide Collect, EncodeAll, Header, AllFit, Capacity, HasHeader, BlocksOf;
    BuiltHeader(version, timestamp, EncodeAll(crc, records));
    CollectedBlocks(records);
  }

  /** A snapshot of a clone has the sources it flattened behind them. */
  lemma FlatBuilt(crc: Checksum, version: nat, timestamp: nat, records: seq<Record>, groups: seq<Group>)
    requires version < Capacity(2) && timestamp < Capacity(8) && AllFit(records) && |Collect(records)| == |records|
    requires AllOk(groups) && |groups| <= MAX_SOURCES && |records| <= MAX_INT / RECORD_SIZE
    ensures var raw := Header(version, timestamp) + EncodeAll(crc, records) + FlatBytes(crc, groups);
            SnapshotOf(crc, raw, version, true, |records|, records, groups) && Whole(crc, raw, true, records, groups)
  {
    hide Collect, EncodeAll, EncodeGroups, Header, AllFit, Capacity, HasHeader, IsFlat, FlatBytes, AllOk, BlocksOf;
    var header, own, flat := Header(version, timestamp), EncodeAll(crc, records), FlatBytes(crc, groups);
    assert header + own + flat == header + (own + flat);
    BuiltHeader(version, timestamp, own + flat);
    CollectedBlocks(records);
    FlatIs(crc, groups);
    assert (header + own + flat)[HEADER_SIZE + |own|..] == flat;
  }

  /** The bytes of a snapshot open to what was put in. */
  lemma BuiltOpens(crc: Checksum, raw: seq<byte>, version: nat, hasFlat: bool, blockCount: nat, records: seq<Record>,
                   groups: seq<Group>)
    requires SnapshotOf(crc, raw, version, hasFlat, blockCount, records, groups)
    ensures Opened(crc, raw, version, hasFlat, blockCount) == Ok((Collect(records), LayersOf(groups)))
  {
    hide SnapshotOf, Opened, Says, LayersSay, Collect, LayersOf;
    CollectExact(records, Collect(records));
    LayersExact(groups, LayersOf(groups));
    OpenedIf(crc, raw, version, hasFlat, blockCount, Collect(records), LayersOf(groups), records, groups);
  }

  /** The blocks a coalesced map covers. */
  method OwnBlocks(m: Index, ghost stride: nat) returns (seen: set<nat>)
    requires WellFormed(m)
    ensures seen == Denote(m, stride).Keys
  {
    hide WellFormed, Denote;
    seen := {};
    ghost var sub: Index := map[];
    var todo := m.Keys;
    NothingExpanded(stride);
    while todo != {}
      invariant todo <= m.Keys && sub.Keys == m.Keys - todo && SubIndex(sub, m)
      invariant WellFormed(sub) && seen == Denote(sub, stride).Keys
    {
      var k :| k in todo;
      OwnStep(m, sub, k, stride);
      seen := seen + Span(m[k].start, m[k].start + m[k].num);
      sub := sub[k := m[k]];
      todo := todo - {k};
    }
    assert sub == m;
  }

  lemma OwnStep(m: Index, sub: Index, k: nat, stride: nat)
    requires WellFormed(m) && WellFormed(sub) && SubIndex(sub, m) && k in m && k !in sub
    ensures WellFormed(sub[k := m[k]])
    ensures Denote(sub[k := m[k]], stride).Keys == Denote(sub, stride).Keys + Span(m[k].start, m[k].start + m[k].num)
  {
    hide Denote;
    SubIndexClear(sub, m, k);
    InsertDenotes(sub, stride, m[k]);
    SumKeys(Denote(sub, stride), m[k], stride);
  }

  /** Freezes a volume: its own map and, for a clone, the layers below it (base first). */
  method CreateSnapshot(crc: Checksum, own: Index, stride: nat, layers: seq<Layer>, version: nat, timestamp: nat)
    returns (r: Result<(seq<byte>, nat)>)
    requires WellFormed(own) && Encodable(Denote(own, stride)) && |Denote(own, stride).Keys| <= MAX_INT / RECORD_SIZE
    requires version < Capacity(2) && timestamp < Capacity(8) && forall i :: 0 <= i < |layers| ==> layers[i].Ok()
    ensures r.Ok? <==> |layers| < Capacity(1) && forall i :: 0 <= i < |layers| ==>
              Fitting(layers, Denote(own, stride).Keys, i)
    ensures r.Ok? ==>
      var got := Opened(crc, r.value.0, version, |layers| > 0, r.value.1);
      && r.value.1 == |Denote(own, stride).Keys| && got.Ok? && Header(version, timestamp) <= r.value.0
      && FlatMeaning(got.value.0) == Denote(own, stride)
      && got.value.1 == Stripped(layers, Denote(own, stride).Keys)
    ensures r.Ok? ==> forall cut :: 0 <= cut < |r.value.0| ==>
              Opened(crc, r.value.0[..cut], version, |layers| > 0, r.value.1).Err?
  {
    hide WellFormed, Denote, Encodable, Opened, OpenedSections, Stripped, Layer.Ok, Fitting, FlatBytes, LayersOf,
        Collect, EncodeAll, AllOk, SnapshotOf;
    Capacities();
    var records := ExpandAll(own, stride);
    CollectCount(records, Denote(own, stride));
    var raw := Header(version, timestamp) + EncodeAll(crc, records);
    if |layers| == 0 {
      PlainBuilt(crc, version, timestamp, records);
      BuiltOpens(crc, raw, version, false, |records|, records, []);
      NoLayers();
      AllCutsFail(crc, raw, version, false, records, []);
      NothingStripped(Denote(own, stride).Keys);
      return Ok((raw, |records|));
    }
    var seen := OwnBlocks(own, stride);
    ghost var groups;
    var flat;
    flat, groups := BuildFlatSection(crc, seen, layers);
    if flat.Err? {
      return Err(flat.reason);
    }
    FlatBuilt(crc, version, timestamp, records, groups);
    BuiltOpens(crc, raw + flat.value, version, true, |records|, records, groups);
    AllCutsFail(crc, raw + flat.value, version, true, records, groups);
    r := Ok((raw + flat.value, |records|));
  }

  lemma NothingStripped(seen: set<nat>)
    ensures Stripped([], seen) == []
  {
  }

  lemma CollectCount(records: seq<Record>, d: map<nat, Loc>)
    requires FlatMeaning(Collect(records)) == d && |records| == |d.Keys|
    ensures |Collect(records)| == |records|
  {
    assert Collect(records).Keys == d.Keys;
    assert |Collect(records)| == |Collect(records).Keys|;
  }

  /** A volume's own map over the layers below it. */
  function Resolved(ident: Identity, own: map<nat, Loc>, layers: seq<Layer>, b: nat): Option<(Identity, Loc)>
  {
    if b in own then Some((ident, own[b])) else FirstHit(layers, b)
  }

  /**
   A fresh clone of a snapshot, base first and flattened layers after it, resolves
   every block as the frozen volume did: same volume, chunk, offset and SeqNum.
   */
  lemma CloneResolves(ident: Identity, own: map<nat, Loc>, layers: seq<Layer>, base: Flat, ancestors: seq<Layer>,
                      self: Identity, b: nat)
    requires FlatMeaning(base) == own && ancestors == Stripped(layers, own.Keys)
    ensures Resolved(self, map[], [Layer(ident, base)] + ancestors, b) == Resolved(ident, own, layers, b)
  {
    var chain := [Layer(ident, base)] + ancestors;
    assert chain[1..] == ancestors;
    StrippedResolves(layers, own.Keys, b);
    assert b in base <==> b in own;
  }
}
