/**
 The block checkpoint: one 34-byte record per physical block, expanded from the
 coalesced map when saved and coalesced again when loaded.
 */
module Checkpoint {
  import opened Bytes
  import opened Extents
  import opened Sorting

  const RECORD_SIZE := 34
  const HEADER_SIZE := 14
  type word32 = x: int | 0 <= x < 0x1_0000_0000

  /** CRC32 over a byte string; nothing but its range is assumed of it. */
  type Checksum = seq<byte> -> word32

  /** One block's line in a checkpoint. The stored num is a legacy field. */
  datatype Record = Record(start: nat, num: nat, chunk: nat, offset: nat, seqNum: nat)
  {
    predicate Fits()
    {
      && start < Capacity(8) && num < Capacity(2) && chunk < Capacity(8)
      && offset < Capacity(4) && seqNum < Capacity(8)
    }

    function Loc(): Loc { Extents.Loc.Loc(chunk, offset, seqNum) }
  }

  // ----- One record -----

  function RecordFields(r: Record): (s: seq<byte>)
    requires r.Fits()
    ensures |s| == 30
  {
    PutUint(8, r.start) + PutUint(2, r.num) + PutUint(8, r.chunk) + PutUint(4, r.offset) + PutUint(8, r.seqNum)
  }

  function EncodeRecord(crc: Checksum, r: Record): (s: seq<byte>)
    requires r.Fits()
    ensures |s| == RECORD_SIZE
  {
    Capacities();
    RecordFields(r) + PutUint(4, crc(RecordFields(r)))
  }

  function ReadFields(s: seq<byte>): (r: Record)
    requires |s| == 30
    ensures r.Fits()
  {
    Record(GetUint(s[0..8]), GetUint(s[8..10]), GetUint(s[10..18]), GetUint(s[18..22]), GetUint(s[22..30]))
  }

  function DecodeRecord(crc: Checksum, s: seq<byte>): Result<Record>
  {
    if |s| != RECORD_SIZE then Err("record size")
    else if crc(s[..30]) != GetUint(s[30..34]) then Err("checksum mismatch")
    else Ok(ReadFields(s[..30]))
  }

  lemma FieldsRoundTrip(r: Record)
    requires r.Fits()
    ensures ReadFields(RecordFields(r)) == r
  {
    var s := RecordFields(r);
    assert s[0..8] == PutUint(8, r.start);
    assert s[8..10] == PutUint(2, r.num);
    assert s[10..18] == PutUint(8, r.chunk);
    assert s[18..22] == PutUint(4, r.offset);
    assert s[22..30] == PutUint(8, r.seqNum);
    GetPut(8, r.start);
    GetPut(2, r.num);
    GetPut(8, r.chunk);
    GetPut(4, r.offset);
    GetPut(8, r.seqNum);
  }

  lemma FieldsCanonical(s: seq<byte>)
    requires |s| == 30
    ensures RecordFields(ReadFields(s)) == s
  {
    PutGet(s[0..8]);
    PutGet(s[8..10]);
    PutGet(s[10..18]);
    PutGet(s[18..22]);
    PutGet(s[22..30]);
    assert s == s[0..8] + s[8..10] + s[10..18] + s[18..22] + s[22..30];
  }

  lemma RecordRoundTrip(crc: Checksum, r: Record)
    requires r.Fits()
    ensures DecodeRecord(crc, EncodeRecord(crc, r)) == Ok(r)
  {
    var s := EncodeRecord(crc, r);
    Capacities();
    assert s[..30] == RecordFields(r);
    assert s[30..34] == PutUint(4, crc(RecordFields(r)));
    GetPut(4, crc(RecordFields(r)));
    FieldsRoundTrip(r);
  }

  /** Decoding accepts exactly the encodings: no other 34 bytes decode to r. */
  lemma RecordCanonical(crc: Checksum, s: seq<byte>, r: Record)
    ensures DecodeRecord(crc, s) == Ok(r) <==> r.Fits() && s == EncodeRecord(crc, r)
  {
    if DecodeRecord(crc, s) == Ok(r) {
      FieldsCanonical(s[..30]);
      PutGet(s[30..34]);
      assert s == s[..30] + s[30..34];
    }
    if r.Fits() && s == EncodeRecord(crc, r) {
      RecordRoundTrip(crc, r);
    }
  }

  // ----- The whole file -----

  function Header(version: nat, timestamp: nat): (s: seq<byte>)
    requires version < Capacity(2) && timestamp < Capacity(8)
    ensures |s| == HEADER_SIZE
  {
    [86, 66, 87, 66] + PutUint(2, version) + PutUint(8, timestamp)
  }

  predicate AllFit(records: seq<Record>)
  {
    forall i :: 0 <= i < |records| ==> records[i].Fits()
  }

  function EncodeAll(crc: Checksum, records: seq<Record>): (s: seq<byte>)
    requires AllFit(records)
    ensures |s| == RECORD_SIZE * |records|
  {
    if |records| == 0 then []
    else EncodeAll(crc, records[..|records| - 1]) + EncodeRecord(crc, records[|records| - 1])
  }

  /** Decodes a body of n records. */
  function DecodeAll(crc: Checksum, s: seq<byte>, n: nat): (r: Result<seq<Record>>)
    requires |s| == RECORD_SIZE * n
    ensures r.Ok? ==> |r.value| == n && AllFit(r.value)
  {
    if n == 0 then Ok([])
    else
      match DecodeAll(crc, s[..RECORD_SIZE * (n - 1)], n - 1)
      case Err(e) => Err(e)
      case Ok(before) =>
        match DecodeRecord(crc, s[RECORD_SIZE * (n - 1)..])
        case Err(e) => Err(e)
        case Ok(r) => Ok(before + [r])
  }

  function Walk(crc: Checksum, raw: seq<byte>, version: nat): (r: Result<seq<Record>>)
    ensures r.Ok? ==> AllFit(r.value)
  {
    if |raw| < HEADER_SIZE then Err("shorter than the header")
    else if raw[..4] != [86, 66, 87, 66] then Err("magic mismatch")
    else if GetUint(raw[4..6]) != version then Err("version mismatch")
    else if (|raw| - HEADER_SIZE) % RECORD_SIZE != 0 then Err("trailing bytes")
    else DecodeAll(crc, raw[HEADER_SIZE..], (|raw| - HEADER_SIZE) / RECORD_SIZE)
  }

  lemma {:induction false} DecodeEncodeAll(crc: Checksum, records: seq<Record>)
    requires AllFit(records)
    ensures DecodeAll(crc, EncodeAll(crc, records), |records|) == Ok(records)
  {
    hide EncodeRecord, DecodeRecord, Record.Fits;
    if |records| != 0 {
      var n := |records| - 1;
      DecodeEncodeAll(crc, records[..n]);
      RecordRoundTrip(crc, records[n]);
      Unappend(EncodeAll(crc, records[..n]), EncodeRecord(crc, records[n]));
      assert records == records[..n] + [records[n]];
    }
  }

  lemma Unappend(s: seq<byte>, t: seq<byte>)
    ensures (s + t)[..|s|] == s && (s + t)[|s|..] == t
  {
  }

  lemma HeaderReads(version: nat, timestamp: nat, body: seq<byte>)
    requires version < Capacity(2) && timestamp < Capacity(8)
    ensures var raw := Header(version, timestamp) + body;
            && |raw| >= HEADER_SIZE && raw[..4] == [86, 66, 87, 66] && GetUint(raw[4..6]) == version
            && raw[HEADER_SIZE..] == body && Spells(raw[..4], "VBWB")
  {
    var raw := Header(version, timestamp) + body;
    assert raw[4..6] == PutUint(2, version);
    GetPut(2, version);
  }

  lemma WholeRecords(n: nat)
    ensures (RECORD_SIZE * n) % RECORD_SIZE == 0 && (RECORD_SIZE * n) / RECORD_SIZE == n
  {
  }

  lemma WalkBody(crc: Checksum, version: nat, timestamp: nat, body: seq<byte>, n: nat)
    requires version < Capacity(2) && timestamp < Capacity(8) && |body| == RECORD_SIZE * n
    ensures Walk(crc, Header(version, timestamp) + body, version) == DecodeAll(crc, body, n)
  {
    HeaderReads(version, timestamp, body);
    WholeRecords(n);
  }

  lemma WalkEncoded(crc: Checksum, version: nat, timestamp: nat, records: seq<Record>)
    requires version < Capacity(2) && timestamp < Capacity(8) && AllFit(records)
    ensures Walk(crc, Header(version, timestamp) + EncodeAll(crc, records), version) == Ok(records)
  {
    WalkBody(crc, version, timestamp, EncodeAll(crc, records), |records|);
    DecodeEncodeAll(crc, records);
  }

  /** Decoding accepts exactly the encodings of n records. */
  lemma {:induction false} DecodeAllExact(crc: Checksum, s: seq<byte>, n: nat, records: seq<Record>)
    requires |s| == RECORD_SIZE * n
    ensures DecodeAll(crc, s, n) == Ok(records) <==> |records| == n && AllFit(records) && s == EncodeAll(crc, records)
  {
    hide Record.Fits, EncodeRecord, DecodeRecord;
    if n > 0 && |records| == n {
      var at := RECORD_SIZE * (n - 1);
      var front, last := records[..n - 1], records[n - 1];
      DecodeAllExact(crc, s[..at], n - 1, front);
      RecordCanonical(crc, s[at..], last);
      assert records == front + [last] && s == s[..at] + s[at..];
      assert AllFit(records) <==> AllFit(front) && last.Fits();
      if AllFit(records) {
        Unappend(EncodeAll(crc, front), EncodeRecord(crc, last));
      }
    }
  }

  /** The file starts with the header of this version, written at any time. */
  ghost predicate HasHeader(raw: seq<byte>, version: nat)
  {
    && version < Capacity(2) && |raw| >= HEADER_SIZE
    && exists t :: 0 <= t < Capacity(8) && raw[..HEADER_SIZE] == Header(version, t)
  }

  lemma HeaderCanonical(raw: seq<byte>, version: nat)
    requires |raw| >= HEADER_SIZE
    ensures HasHeader(raw, version) <==> raw[..4] == [86, 66, 87, 66] && GetUint(raw[4..6]) == version
  {
    hide Capacity, GetUint, PutUint;
    if raw[..4] == [86, 66, 87, 66] && GetUint(raw[4..6]) == version {
      var t := GetUint(raw[6..14]);
      PutGet(raw[4..6]);
      PutGet(raw[6..14]);
      assert raw[..14] == raw[..4] + raw[4..6] + raw[6..14];
      assert raw[..HEADER_SIZE] == Header(version, t);
    }
    if HasHeader(raw, version) {
      var t :| 0 <= t < Capacity(8) && raw[..HEADER_SIZE] == Header(version, t);
      HeaderReads(version, t, raw[HEADER_SIZE..]);
      assert raw == raw[..HEADER_SIZE] + raw[HEADER_SIZE..];
    }
  }

  /** A checkpoint is read exactly if it is a header of this version and the encodings of some records. */
  lemma WalkExact(crc: Checksum, raw: seq<byte>, version: nat, records: seq<Record>)
    ensures Walk(crc, raw, version) == Ok(records)
       <==> HasHeader(raw, version) && AllFit(records) && raw[HEADER_SIZE..] == EncodeAll(crc, records)
  {
    hide HasHeader, DecodeAll, EncodeAll, AllFit, GetUint;
    if |raw| < HEADER_SIZE {
      NoHeader(raw, version);
    } else {
      HeaderCanonical(raw, version);
      WholeRecords(|records|);
      if (|raw| - HEADER_SIZE) % RECORD_SIZE == 0 {
        DecodeAllExact(crc, raw[HEADER_SIZE..], (|raw| - HEADER_SIZE) / RECORD_SIZE, records);
      }
    }
  }

  lemma NoHeader(raw: seq<byte>, version: nat)
    requires |raw| < HEADER_SIZE
    ensures !HasHeader(raw, version)
  {
  }

  // ----- Records as a block map -----

  type Flat = map<nat, Record>

  function Collect(records: seq<Record>): (flat: Flat)
    ensures forall b :: b in flat ==> flat[b].start == b
  {
    if |records| == 0 then map[]
    else var r := records[|records| - 1]; Collect(records[..|records| - 1])[r.start := r]
  }

  /** The last record for the block. */
  ghost predicate LastFor(records: seq<Record>, i: int, b: nat)
  {
    && 0 <= i < |records| && records[i].start == b
    && forall j :: i < j < |records| ==> records[j].start != b
  }

  /** The map has the blocks the records name, each with its last record. */
  ghost predicate Says(records: seq<Record>, flat: Flat)
  {
    && (forall r :: r in records ==> r.start in flat)
    && (forall b :: b in flat ==> exists i :: LastFor(records, i, b) && flat[b] == records[i])
  }

  lemma {:induction false} CollectSays(records: seq<Record>)
    ensures Says(records, Collect(records))
  {
    if |records| > 0 {
      var n := |records| - 1;
      CollectSays(records[..n]);
      assert records == records[..n] + [records[n]];
      SaysOneMore(records[..n], Collect(records[..n]), records[n]);
    }
  }

  lemma SaysOneMore(records: seq<Record>, flat: Flat, r: Record)
    requires Says(records, flat)
    ensures Says(records + [r], flat[r.start := r])
  {
    var more, now, n := records + [r], flat[r.start := r], |records|;
    forall b | b in now ensures exists i :: LastFor(more, i, b) && now[b] == more[i] {
      if b == r.start {
        assert LastFor(more, n, b);
      } else {
        var i :| LastFor(records, i, b) && flat[b] == records[i];
        assert LastFor(more, i, b);
      }
    }
  }

  /** That is all there is to collecting. */
  lemma CollectExact(records: seq<Record>, flat: Flat)
    ensures Says(records, flat) <==> flat == Collect(records)
  {
    hide Collect;
    CollectSays(records);
    if Says(records, flat) {
      forall b | b in flat ensures b in Collect(records) && flat[b] == Collect(records)[b] {
        SaidOnce(records, flat, Collect(records), b);
      }
      forall b | b in Collect(records) ensures b in flat {
        SaidOnce(records, Collect(records), flat, b);
      }
    }
  }

  lemma SaidOnce(records: seq<Record>, a: Flat, c: Flat, b: nat)
    requires Says(records, a) && Says(records, c) && b in a
    ensures b in c && a[b] == c[b]
  {
    var i :| LastFor(records, i, b) && a[b] == records[i];
    assert records[i] in records;
    var j :| LastFor(records, j, b) && c[b] == records[j];
  }

  /** What a flat map says about each block; the stored num plays no part. */
  function FlatMeaning(flat: Flat): map<nat, Loc>
  {
    map b | b in flat :: flat[b].Loc()
  }

  lemma CollectOne(records: seq<Record>, r: Record)
    ensures Collect(records + [r]) == Collect(records)[r.start := r]
  {
    assert (records + [r])[..|records|] == records;
  }

  lemma MeaningOne(flat: Flat, r: Record)
    ensures FlatMeaning(flat[r.start := r]) == FlatMeaning(flat)[r.start := r.Loc()]
  {
  }

  // ----- Saving -----

  function Single(e: Extent, i: nat, stride: nat): Record
    requires i < |e.seqNums|
  {
    Record(e.start + i, 1, e.chunk, e.offset + Times(i, stride), e.seqNums[i])
  }

  function Prefix(e: Extent, n: nat): Extent
    requires n <= |e.seqNums|
  {
    e.(num := n)
  }

  lemma PrefixGrows(e: Extent, n: nat, stride: nat)
    requires 0 < n < |e.seqNums|
    ensures Cells(Prefix(e, n + 1), stride) == Cells(Prefix(e, n), stride)[e.start + n := Single(e, n, stride).Loc()]
  {
    var d := Cells(Prefix(e, n), stride)[e.start + n := Single(e, n, stride).Loc()];
    forall b: nat ensures Get(Cells(Prefix(e, n + 1), stride), b) == Get(d, b) {
      assert Get(d, b) == if b == e.start + n then Some(Single(e, n, stride).Loc())
          else Get(Cells(Prefix(e, n), stride), b);
    }
    SameMap(Cells(Prefix(e, n + 1), stride), d);
  }

  lemma PrefixStarts(e: Extent, stride: nat)
    requires 0 < |e.seqNums|
    ensures Cells(Prefix(e, 1), stride) == map[e.start := Single(e, 0, stride).Loc()]
  {
    SameMap(Cells(Prefix(e, 1), stride), map[e.start := Single(e, 0, stride).Loc()]);
  }

  function Expanded(e: Extent, n: nat, stride: nat): (s: seq<Record>)
    requires n <= |e.seqNums|
    ensures |s| == n && forall i :: 0 <= i < n ==> s[i] == Single(e, i, stride)
  {
    seq(n, i requires 0 <= i < n => Single(e, i, stride))
  }

  lemma {:induction false} ExpandedMeaning(records: seq<Record>, e: Extent, n: nat, stride: nat)
    requires 0 < n <= |e.seqNums|
    ensures FlatMeaning(Collect(records + Expanded(e, n, stride)))
            == FlatMeaning(Collect(records)) + Cells(Prefix(e, n), stride)
  {
    hide Collect, FlatMeaning, Cells;
    var base := FlatMeaning(Collect(records));
    if n == 1 {
      assert records + Expanded(e, 1, stride) == records + [Single(e, 0, stride)];
      CollectOne(records, Single(e, 0, stride));
      MeaningOne(Collect(records), Single(e, 0, stride));
      PrefixStarts(e, stride);
    } else {
      var r := Single(e, n - 1, stride);
      var before := records + Expanded(e, n - 1, stride);
      ExpandedMeaning(records, e, n - 1, stride);
      assert records + Expanded(e, n, stride) == before + [r];
      CollectOne(before, r);
      MeaningOne(Collect(before), r);
      PrefixGrows(e, n - 1, stride);
      PlusUpdate(base, Cells(Prefix(e, n - 1), stride), r.start, r.Loc());
    }
  }

  /** One single-block record per block of a run. */
  method ExpandBlockLookup(e: Extent, stride: nat) returns (out: seq<Record>)
    requires e.Ok()
    ensures out == Expanded(e, e.num, stride)
    ensures forall records ::
              FlatMeaning(Collect(records + out)) == FlatMeaning(Collect(records)) + Cells(e, stride)
  {
    out := [];
    for i := 0 to e.num
      invariant |out| == i
      invariant forall j :: 0 <= j < i ==> out[j] == Single(e, j, stride)
    {
      out := out + [Single(e, i, stride)];
    }
    assert out == Expanded(e, e.num, stride);
    forall records
      ensures FlatMeaning(Collect(records + out)) == FlatMeaning(Collect(records)) + Cells(e, stride)
    {
      ExpandedMeaning(records, e, e.num, stride);
      assert Prefix(e, e.num) == e;
    }
  }

  /** The records of an index all fit their fields. */
  ghost predicate Encodable(d: map<nat, Loc>)
  {
    forall b :: b in d ==>
      && b < Capacity(8) && d[b].chunk < Capacity(8)
      && d[b].offset < Capacity(4) && d[b].seqNum < Capacity(8)
  }

  /** The bytes walk to one record per block of the map. */
  ghost predicate CheckpointOf(crc: Checksum, raw: seq<byte>, version: nat, d: map<nat, Loc>)
  {
    && Walk(crc, raw, version).Ok? && FlatMeaning(Collect(Walk(crc, raw, version).value)) == d
    && |Walk(crc, raw, version).value| == |d.Keys|
  }

  /** Of records that collapse to none fewer, each is kept. */
  lemma {:induction false} CollectKeeps(records: seq<Record>, i: nat)
    requires |Collect(records).Keys| == |records|
    ensures i < |records| ==> records[i].start in Collect(records) && Collect(records)[records[i].start] == records[i]
  {
    if |records| > 0 {
      var n := |records| - 1;
      var before, last := Collect(records[..n]), records[n];
      CollectSize(records[..n]);
      assert Collect(records).Keys == before.Keys + {last.start};
      assert last.start in before ==> Collect(records).Keys == before.Keys;
      CollectKeeps(records[..n], i);
    }
  }

  lemma {:induction false} CollectSize(records: seq<Record>)
    ensures |Collect(records).Keys| <= |records|
  {
    if |records| > 0 {
      var n := |records| - 1;
      CollectSize(records[..n]);
      assert Collect(records).Keys == Collect(records[..n]).Keys + {records[n].start};
    }
  }

  /** next is one past the highest chunk of the map, or the counter if that is higher. */
  ghost predicate NextFor(d: map<nat, Loc>, objectNum: nat, next: nat)
  {
    && next >= objectNum && (forall b :: b in d ==> d[b].chunk < next)
    && (next == objectNum || exists b :: b in d && next == d[b].chunk + 1)
  }

  lemma NextForRecords(crc: Checksum, raw: seq<byte>, version: nat, d: map<nat, Loc>, objectNum: nat, next: nat)
    requires CheckpointOf(crc, raw, version, d) && next >= objectNum && forall b :: b in d ==> d[b].chunk < next
    requires next == objectNum
          || exists i :: 0 <= i < |Walk(crc, raw, version).value| && next == Walk(crc, raw, version).value[i].chunk + 1
    ensures NextFor(d, objectNum, next)
  {
    hide Collect, Walk;
    var records := Walk(crc, raw, version).value;
    assert Collect(records).Keys == FlatMeaning(Collect(records)).Keys;
    if next != objectNum {
      var i :| 0 <= i < |records| && next == records[i].chunk + 1;
      CollectKeeps(records, i);
      assert records[i].start in d;
    }
  }

  lemma SingleFits(m: Index, stride: nat, k: nat, i: nat)
    requires WellFormed(m) && Encodable(Denote(m, stride)) && k in m && i < m[k].num
    ensures Single(m[k], i, stride).Fits()
  {
    assert Covers(m, k, k + i);
    FindAt(m, stride, k, k + i);
    assert Get(Denote(m, stride), k + i) == Find(m, stride, k + i);
    Capacities();
  }

  lemma SumKeys(d: map<nat, Loc>, e: Extent, stride: nat)
    requires e.Ok()
    ensures (d + Cells(e, stride)).Keys == d.Keys + Span(e.start, e.End())
  {
    var cells := Cells(e, stride);
    forall b: nat ensures b in cells <==> e.start <= b < e.End() {
      assert Get(cells, b) == if e.start <= b < e.End() then Some(e.At(b - e.start, stride)) else None;
    }
  }

  /** Laying a run over a map that has none of its blocks adds exactly that many. */
  lemma RunAddsItsBlocks(d: map<nat, Loc>, e: Extent, stride: nat)
    requires e.Ok() && forall b :: e.start <= b < e.End() ==> b !in d
    ensures |(d + Cells(e, stride)).Keys| == |d.Keys| + e.num
  {
    hide Cells, Span;
    SpanSize(e.start, e.End());
    SumKeys(d, e, stride);
    assert d.Keys !! Span(e.start, e.End());
  }

  lemma ClearUnmapped(m: Index, stride: nat, ns: nat, ne: nat)
    requires WellFormed(m) && Clear(m, ns, ne)
    ensures forall b :: ns <= b < ne ==> b !in Denote(m, stride)
  {
    forall b | ns <= b < ne ensures b !in Denote(m, stride) {
      assert Get(Denote(m, stride), b) == Find(m, stride, b);
    }
  }

  ghost predicate OneEach(records: seq<Record>)
  {
    forall r :: r in records ==> r.num == 1
  }

  /** Expands every run of m, in whatever order the map yields them: one record per block. */
  method ExpandAll(m: Index, stride: nat) returns (records: seq<Record>)
    requires WellFormed(m) && Encodable(Denote(m, stride))
    ensures AllFit(records) && FlatMeaning(Collect(records)) == Denote(m, stride)
    ensures |records| == |Denote(m, stride).Keys| && OneEach(records)
  {
    hide WellFormed, Denote, Encodable, Collect, FlatMeaning, Clear, Record.Fits;
    records := [];
    ghost var sub: Index := map[];
    var todo := m.Keys;
    NothingExpanded(stride);
    while todo != {}
      invariant todo <= m.Keys && sub.Keys == m.Keys - todo && SubIndex(sub, m)
      invariant WellFormed(sub) && FlatMeaning(Collect(records)) == Denote(sub, stride)
      invariant AllFit(records) && |records| == |Denote(sub, stride).Keys| && OneEach(records)
    {
      var k :| k in todo;
      ExpandStep(m, sub, k, stride);
      var singles := ExpandBlockLookup(m[k], stride);
      records := records + singles;
      sub := sub[k := m[k]];
      todo := todo - {k};
    }
    assert sub == m;
  }

  lemma NothingExpanded(stride: nat)
    ensures WellFormed(map[]) && Denote(map[], stride) == map[] && FlatMeaning(Collect([])) == map[]
  {
    SameMap(Denote(map[], stride), map[]);
  }

  lemma ExpandStep(m: Index, sub: Index, k: nat, stride: nat)
    requires WellFormed(m) && Encodable(Denote(m, stride)) && WellFormed(sub) && SubIndex(sub, m) && k in m && k !in sub
    ensures m[k].Ok() && WellFormed(sub[k := m[k]])
    ensures Denote(sub[k := m[k]], stride) == Denote(sub, stride) + Cells(m[k], stride)
    ensures |Denote(sub[k := m[k]], stride).Keys| == |Denote(sub, stride).Keys| + m[k].num
    ensures forall i: nat :: i < m[k].num ==> Single(m[k], i, stride).Fits()
  {
    hide Denote, Encodable, Cells;
    SubIndexClear(sub, m, k);
    InsertDenotes(sub, stride, m[k]);
    ClearUnmapped(sub, stride, k, m[k].End());
    RunAddsItsBlocks(Denote(sub, stride), m[k], stride);
    forall i: nat | i < m[k].num ensures Single(m[k], i, stride).Fits() {
      SingleFits(m, stride, k, i);
    }
  }

  /** Writes a checkpoint of m, a record of one block for each. */
  method Serialize(crc: Checksum, m: Index, stride: nat, version: nat, timestamp: nat) returns (raw: seq<byte>)
    requires WellFormed(m) && Encodable(Denote(m, stride))
    requires version < Capacity(2) && timestamp < Capacity(8)
    ensures CheckpointOf(crc, raw, version, Denote(m, stride))
    ensures Header(version, timestamp) <= raw && OneEach(Walk(crc, raw, version).value)
  {
    var records := ExpandAll(m, stride);
    WalkEncoded(crc, version, timestamp, records);
    raw := Header(version, timestamp) + EncodeAll(crc, records);
  }

  // ----- Loading: coalescing records back into runs -----

  /** Block b and the next one sit one stride apart in the same chunk. */
  ghost predicate Linked(d: map<nat, Loc>, stride: nat, b: nat)
  {
    && b in d && b + 1 in d
    && d[b + 1].chunk == d[b].chunk
    && d[b + 1].offset == d[b].offset + stride
  }

  /** n consecutive links from b on: a run of at least n + 1 blocks. */
  ghost predicate Chain(d: map<nat, Loc>, stride: nat, b: nat, n: nat)
  {
    forall x: nat :: b <= x < b + n ==> Linked(d, stride, x)
  }

  /** No run is longer than a 16-bit length can say. */
  ghost predicate RunsFit(d: map<nat, Loc>, stride: nat)
  {
    forall b: nat :: !Chain(d, stride, b, MAX_RUN)
  }

  lemma {:induction false} ChainLoc(d: map<nat, Loc>, stride: nat, b: nat, n: nat, i: nat)
    requires b in d && Chain(d, stride, b, n) && i <= n
    ensures b + i in d && d[b + i].chunk == d[b].chunk && d[b + i].offset == d[b].offset + Times(i, stride)
  {
    if i != 0 {
      ChainLoc(d, stride, b, n, i - 1);
      assert Linked(d, stride, b + (i - 1));
    }
  }

  lemma NoChain(d: map<nat, Loc>, stride: nat, b: nat)
    ensures Chain(d, stride, b, 0)
  {
  }

  lemma ChainGrows(d: map<nat, Loc>, stride: nat, b: nat, n: nat)
    requires Chain(d, stride, b, n) && Linked(d, stride, b + n)
    ensures Chain(d, stride, b, n + 1)
  {
  }

  /** Keys [i, j) count up by one, and seqNums are theirs. */
  ghost predicate RunSoFar(flat: Flat, keys: seq<nat>, i: nat, j: nat, seqNums: seq<nat>)
    requires forall x :: x in keys ==> x in flat
  {
    && i < j <= |keys| && |seqNums| == j - i
    && forall x :: i <= x < j ==> keys[x] == keys[i] + (x - i) && seqNums[x - i] == flat[keys[x]].seqNum
  }

  lemma RunGrows(flat: Flat, keys: seq<nat>, i: nat, j: nat, seqNums: seq<nat>)
    requires forall x :: x in keys ==> x in flat
    requires RunSoFar(flat, keys, i, j, seqNums) && j < |keys| && keys[j] == keys[j - 1] + 1
    ensures RunSoFar(flat, keys, i, j + 1, seqNums + [flat[keys[j]].seqNum]) && keys[j - 1] == keys[i] + (j - i - 1)
  {
  }

  /** Extends a run from keys[i] for as long as records sit one stride apart. */
  method RunFrom(flat: Flat, stride: nat, keys: seq<nat>, i: nat) returns (j: nat, seqNums: seq<nat>)
    requires forall b :: b in flat ==> flat[b].start == b
    requires Increasing(keys) && (forall x :: x in keys <==> x in flat) && i < |keys|
    ensures i < j <= |keys| && |seqNums| == j - i
    ensures forall x :: i <= x < j ==> keys[x] == keys[i] + (x - i) && seqNums[x - i] == flat[keys[x]].seqNum
    ensures Chain(FlatMeaning(flat), stride, keys[i], j - i - 1)
    ensures !Linked(FlatMeaning(flat), stride, keys[j - 1])
  {
    hide Increasing, Chain;
    seqNums, j := [flat[keys[i]].seqNum], i + 1;
    ghost var d := FlatMeaning(flat);
    NoChain(d, stride, keys[i]);
    while j < |keys| && Continues(flat, stride, keys[i], keys[j - 1], keys[j])
      invariant i < j <= |keys| && RunSoFar(flat, keys, i, j, seqNums)
      invariant flat[keys[j - 1]].chunk == flat[keys[i]].chunk
      invariant Chain(d, stride, keys[i], j - i - 1)
    {
      hide RunSoFar;
      RunGrows(flat, keys, i, j, seqNums);
      ChainGrows(d, stride, keys[i], j - i - 1);
      seqNums, j := seqNums + [flat[keys[j]].seqNum], j + 1;
    }
    NextKey(keys, j);
  }

  /** Record k follows record prev in the run that record first began. */
  predicate Continues(flat: Flat, stride: nat, first: nat, prev: nat, k: nat)
    requires first in flat && prev in flat && k in flat
  {
    flat[k].start == flat[prev].start + 1 && flat[k].chunk == flat[first].chunk
        && flat[k].offset == flat[prev].offset + stride
  }

  lemma NextKey(keys: seq<nat>, j: nat)
    requires Increasing(keys) && 0 < j <= |keys|
    ensures keys[j - 1] + 1 in keys ==> j < |keys| && keys[j] == keys[j - 1] + 1
  {
    hide Increasing;
    if keys[j - 1] + 1 in keys {
      var x :| 0 <= x < |keys| && keys[x] == keys[j - 1] + 1;
      if x < j {
        KeysRise(keys, x, j - 1);
      } else if j < x {
        KeysRise(keys, j - 1, j);
        KeysRise(keys, j, x);
      }
    }
  }

  lemma KeysRise(keys: seq<nat>, x: nat, y: nat)
    requires Increasing(keys) && x <= y < |keys|
    ensures x == y || keys[x] < keys[y]
  {
  }

  ghost function Upto(d: map<nat, Loc>, keys: seq<nat>, i: nat): map<nat, Loc>
    requires i <= |keys|
  {
    map b | b in d && b in keys[..i] :: d[b]
  }

  lemma UptoRun(d: map<nat, Loc>, stride: nat, keys: seq<nat>, i: nat, j: nat, e: Extent)
    requires i < j <= |keys| && e.Ok() && e.num == j - i && e.start == keys[i]
    requires forall x :: x in keys <==> x in d
    requires forall x :: i <= x < j ==> keys[x] == keys[i] + (x - i) && d[keys[x]] == e.At(x - i, stride)
    ensures Upto(d, keys, j) == Upto(d, keys, i) + Cells(e, stride)
  {
    forall b: nat ensures Get(Upto(d, keys, j), b) == Get(Upto(d, keys, i) + Cells(e, stride), b) {
      SumAt(Upto(d, keys, i), Cells(e, stride), b);
      if keys[i] <= b < keys[i] + (j - i) {
        assert b == keys[..j][i + (b - keys[i])];
        assert d[keys[i + (b - keys[i])]] == e.At(b - keys[i], stride);
      } else {
        assert b in keys[..j] <==> b in keys[..i];
      }
    }
    SameMap(Upto(d, keys, j), Upto(d, keys, i) + Cells(e, stride));
  }

  function Saturate(n: nat): nat
  {
    if n > MAX_RUN then MAX_RUN else n
  }

  /** The run the loader builds; its length field saturates, its SeqNums do not. */
  function MergedRun(flat: Flat, keys: seq<nat>, i: nat, seqNums: seq<nat>): Extent
    requires i < |keys| && keys[i] in flat
  {
    var first := flat[keys[i]];
    Extent(first.start, Saturate(|seqNums|), first.chunk, first.offset, seqNums)
  }

  ghost predicate KeysOf(flat: Flat, keys: seq<nat>)
  {
    && Increasing(keys) && (forall x :: x in keys <==> x in flat)
    && forall b :: b in flat ==> flat[b].start == b
  }

  lemma MergedAt(flat: Flat, stride: nat, keys: seq<nat>, i: nat, j: nat, seqNums: seq<nat>, x: nat)
    requires KeysOf(flat, keys) && i < j <= |keys| && |seqNums| == j - i
    requires forall x :: i <= x < j ==> keys[x] == keys[i] + (x - i) && seqNums[x - i] == flat[keys[x]].seqNum
    requires Chain(FlatMeaning(flat), stride, keys[i], j - i - 1)
    requires i <= x < j
    ensures FlatMeaning(flat)[keys[x]] == MergedRun(flat, keys, i, seqNums).At(x - i, stride)
  {
    var d := FlatMeaning(flat);
    ChainLoc(d, stride, keys[i], j - i - 1, x - i);
  }

  /** A run that ends at keys[j - 1] and fits has no over-long chain starting inside it. */
  lemma ShortRunNoChain(d: map<nat, Loc>, stride: nat, keys: seq<nat>, i: nat, j: nat, x: nat)
    requires i <= x < j <= |keys| && j - i <= MAX_RUN
    requires forall x :: i <= x < j ==> keys[x] == keys[i] + (x - i)
    requires !Linked(d, stride, keys[j - 1])
    ensures !Chain(d, stride, keys[x], MAX_RUN)
  {
    assert keys[x] <= keys[j - 1] < keys[x] + MAX_RUN;
  }

  ghost predicate AllShort(d: map<nat, Loc>, stride: nat, keys: seq<nat>, i: nat)
    requires i <= |keys|
  {
    forall x :: 0 <= x < i ==> !Chain(d, stride, keys[x], MAX_RUN)
  }

  /** Some block of an over-long run is missing from the rebuilt map. */
  ghost predicate Lost(d: map<nat, Loc>, stride: nat, got: map<nat, Loc>, keys: seq<nat>, i: nat)
    requires i <= |keys|
  {
    && (exists b: nat :: Chain(d, stride, b, MAX_RUN))
    && (exists b :: b in keys[..i] && b !in got)
  }

  ghost predicate EndsBefore(m: Index, keys: seq<nat>, i: nat)
    requires i <= |keys|
  {
    i < |keys| ==> forall k :: k in m ==> m[k].End() <= keys[i]
  }

  lemma MergedInserts(flat: Flat, stride: nat, keys: seq<nat>, i: nat, j: nat, seqNums: seq<nat>, out: Index)
    requires KeysOf(flat, keys) && i < j <= |keys| && |seqNums| == j - i
    requires forall x :: i <= x < j ==> keys[x] == keys[i] + (x - i) && seqNums[x - i] == flat[keys[x]].seqNum
    requires WellFormed(out) && EndsBefore(out, keys, i)
    ensures var e := MergedRun(flat, keys, i, seqNums);
            && e.Ok() && e.start == keys[i] && WellFormed(out[keys[i] := e])
            && Denote(out[keys[i] := e], stride) == Denote(out, stride) + Cells(e, stride)
            && EndsBefore(out[keys[i] := e], keys, j)
  {
    var e := MergedRun(flat, keys, i, seqNums);
    InsertDenotes(out, stride, e);
    if j < |keys| {
      assert keys[j - 1] < keys[j];
    }
  }

  lemma WholeStep(flat: Flat, stride: nat, keys: seq<nat>, i: nat, j: nat, seqNums: seq<nat>, out: Index)
    requires KeysOf(flat, keys) && i < j <= |keys| && |seqNums| == j - i <= MAX_RUN
    requires forall x :: i <= x < j ==> keys[x] == keys[i] + (x - i) && seqNums[x - i] == flat[keys[x]].seqNum
    requires Chain(FlatMeaning(flat), stride, keys[i], j - i - 1) && !Linked(FlatMeaning(flat), stride, keys[j - 1])
    requires WellFormed(out) && AllShort(FlatMeaning(flat), stride, keys, i)
    requires Denote(out, stride) == Upto(FlatMeaning(flat), keys, i)
    ensures Denote(out, stride) + Cells(MergedRun(flat, keys, i, seqNums), stride) == Upto(FlatMeaning(flat), keys, j)
    ensures AllShort(FlatMeaning(flat), stride, keys, j)
  {
    var d := FlatMeaning(flat);
    forall x | i <= x < j
      ensures d[keys[x]] == MergedRun(flat, keys, i, seqNums).At(x - i, stride)
      ensures !Chain(d, stride, keys[x], MAX_RUN)
    {
      MergedAt(flat, stride, keys, i, j, seqNums, x);
      ShortRunNoChain(d, stride, keys, i, j, x);
    }
    UptoRun(d, stride, keys, i, j, MergedRun(flat, keys, i, seqNums));
  }

  lemma LostStep(flat: Flat, stride: nat, keys: seq<nat>, i: nat, j: nat, seqNums: seq<nat>, out: Index)
    requires KeysOf(flat, keys) && i < j <= |keys| && |seqNums| == j - i > MAX_RUN
    requires forall x :: i <= x < j ==> keys[x] == keys[i] + (x - i) && seqNums[x - i] == flat[keys[x]].seqNum
    requires Chain(FlatMeaning(flat), stride, keys[i], j - i - 1)
    requires WellFormed(out) && EndsBefore(out, keys, i)
    ensures MergedRun(flat, keys, i, seqNums).Ok()
    ensures Lost(FlatMeaning(flat), stride, Denote(out, stride) + Cells(MergedRun(flat, keys, i, seqNums), stride),
            keys, j)
  {
    var d := FlatMeaning(flat);
    var e := MergedRun(flat, keys, i, seqNums);
    assert Chain(d, stride, keys[i], MAX_RUN);
    var b := keys[i] + MAX_RUN;
    assert keys[..j][i + MAX_RUN] == b;
    assert Get(Denote(out, stride), b) == Find(out, stride, b);
    SumAt(Denote(out, stride), Cells(e, stride), b);
  }

  /** No run could be longer: the block behind its end is not linked to it. */
  ghost predicate Maximal(m: Index, d: map<nat, Loc>, stride: nat)
  {
    forall k :: k in m ==> 0 < m[k].num == |m[k].seqNums| && !Linked(d, stride, m[k].End() - 1)
  }

  lemma InsideLinked(m: Index, stride: nat, k: nat, b: nat)
    requires WellFormed(m) && Covers(m, k, b) && Covers(m, k, b + 1)
    ensures Linked(Denote(m, stride), stride, b)
  {
    FindAt(m, stride, k, b);
    FindAt(m, stride, k, b + 1);
    assert Get(Denote(m, stride), b) == Find(m, stride, b) && Get(Denote(m, stride), b + 1) == Find(m, stride, b + 1);
  }

  lemma BeforeStart(m: Index, stride: nat, k: nat)
    requires WellFormed(m) && Maximal(m, Denote(m, stride), stride) && 0 < k && k in m
    ensures !Linked(Denote(m, stride), stride, k - 1)
  {
    hide Denote;
    if k - 1 in Denote(m, stride) {
      assert Get(Denote(m, stride), k - 1) == Find(m, stride, k - 1);
      var i: nat :| Covers(m, i, k - 1);
      assert m[i].End() == k;
    }
  }

  lemma SameStart(m: Index, n: Index, stride: nat, k: nat)
    requires WellFormed(m) && WellFormed(n) && Denote(m, stride) == Denote(n, stride) && k in m
    requires Maximal(m, Denote(m, stride), stride)
    ensures k in n
  {
    hide Denote;
    var d := Denote(m, stride);
    assert Get(d, k) == Find(m, stride, k) == Find(n, stride, k);
    FindAt(m, stride, k, k);
    var j: nat :| Covers(n, j, k);
    if j < k {
      BeforeStart(m, stride, k);
      InsideLinked(n, stride, j, k - 1);
    }
  }

  lemma SameEnd(m: Index, n: Index, stride: nat, k: nat)
    requires WellFormed(m) && WellFormed(n) && Denote(m, stride) == Denote(n, stride) && k in m && k in n
    requires Maximal(m, Denote(m, stride), stride)
    ensures m[k].End() >= n[k].End()
  {
    hide Denote;
    if m[k].End() < n[k].End() {
      InsideLinked(n, stride, k, m[k].End() - 1);
    }
  }

  lemma NoTimes(stride: nat)
    ensures Times(0, stride) == 0
  {
  }

  lemma SameRun(m: Index, n: Index, stride: nat, k: nat)
    requires WellFormed(m) && WellFormed(n) && Denote(m, stride) == Denote(n, stride) && k in m && k in n
    requires m[k].num == n[k].num == |m[k].seqNums| == |n[k].seqNums|
    ensures m[k] == n[k]
  {
    hide Denote, Times;
    forall i | 0 <= i < m[k].num ensures m[k].At(i, stride) == n[k].At(i, stride) {
      FindAt(m, stride, k, k + i);
      FindAt(n, stride, k, k + i);
      assert Get(Denote(m, stride), k + i) == Find(m, stride, k + i) == Find(n, stride, k + i);
    }
    assert m[k].At(0, stride) == n[k].At(0, stride);
    NoTimes(stride);
    forall i | 0 <= i < m[k].num ensures m[k].seqNums[i] == n[k].seqNums[i] {
      assert m[k].At(i, stride) == n[k].At(i, stride);
    }
  }

  /** Only one index of maximal runs means a given map, so what a checkpoint loads as is determined. */
  lemma MaximalUnique(m: Index, n: Index, stride: nat)
    requires WellFormed(m) && WellFormed(n) && Denote(m, stride) == Denote(n, stride)
    requires Maximal(m, Denote(m, stride), stride) && Maximal(n, Denote(n, stride), stride)
    ensures m == n
  {
    hide Denote, WellFormed;
    forall k: nat ensures k in m <==> k in n {
      if k in m {
        SameStart(m, n, stride, k);
      }
      if k in n {
        SameStart(n, m, stride, k);
      }
    }
    forall k | k in m ensures m[k] == n[k] {
      SameEnd(m, n, stride, k);
      SameEnd(n, m, stride, k);
      assert m[k].num == n[k].num by {
        assert m[k].start == k && n[k].start == k by { StartIs(m, k); StartIs(n, k); }
      }
      SameRun(m, n, stride, k);
    }
  }

  lemma StartIs(m: Index, k: nat)
    requires WellFormed(m) && k in m
    ensures m[k].start == k
  {
  }

  /**
   Merges records into runs. Every block survives the merge exactly when no run
   is longer than the 16-bit length field can express.
   */
  method CoalesceBlockLookup(flat: Flat, stride: nat) returns (out: Index)
    requires forall b :: b in flat ==> flat[b].start == b
    ensures WellFormed(out)
    ensures Denote(out, stride) == FlatMeaning(flat) <==> RunsFit(FlatMeaning(flat), stride)
    ensures RunsFit(FlatMeaning(flat), stride) ==> Maximal(out, FlatMeaning(flat), stride)
  {
    hide Denote, WellFormed, RunsFit, AllShort, Lost, EndsBefore, Maximal, Upto, Chain, Linked, FlatMeaning;
    ghost var d := FlatMeaning(flat);
    out := map[];
    var keys := SortKeys(flat.Keys);
    NothingMerged(d, keys, stride);
    ghost var whole := true;
    var i := 0;
    while i < |keys|
      invariant 0 <= i <= |keys| && WellFormed(out) && EndsBefore(out, keys, i)
      invariant whole ==> Denote(out, stride) == Upto(d, keys, i) && AllShort(d, stride, keys, i)
      invariant whole ==> Maximal(out, d, stride)
      invariant !whole ==> Lost(d, stride, Denote(out, stride), keys, i)
    {
      var j, seqNums := RunFrom(flat, stride, keys, i);
      var merged := MergedRun(flat, keys, i, seqNums);
      MergedInserts(flat, stride, keys, i, j, seqNums, out);
      if j - i > MAX_RUN {
        LostStep(flat, stride, keys, i, j, seqNums, out);
        whole := false;
      } else if whole {
        WholeStep(flat, stride, keys, i, j, seqNums, out);
        MaximalGrows(out, d, stride, merged, keys[j - 1]);
      } else {
        StillLost(d, stride, Denote(out, stride), keys, i, j, Cells(merged, stride), merged, stride);
      }
      out := out[merged.start := merged];
      i := j;
    }
    MergedAll(flat, stride, keys, Denote(out, stride), whole);
  }

  lemma NothingMerged(d: map<nat, Loc>, keys: seq<nat>, stride: nat)
    ensures WellFormed(map[]) && EndsBefore(map[], keys, 0) && AllShort(d, stride, keys, 0) && Maximal(map[], d, stride)
    ensures Denote(map[], stride) == Upto(d, keys, 0)
  {
    SameMap(Denote(map[], stride), Upto(d, keys, 0));
  }

  lemma MaximalGrows(m: Index, d: map<nat, Loc>, stride: nat, e: Extent, last: nat)
    requires Maximal(m, d, stride) && 0 < e.num == |e.seqNums| && e.End() == last + 1 && !Linked(d, stride, last)
    ensures Maximal(m[e.start := e], d, stride)
  {
  }

  lemma MergedAll(flat: Flat, stride: nat, keys: seq<nat>, got: map<nat, Loc>, whole: bool)
    requires KeysOf(flat, keys)
    requires whole ==> got == Upto(FlatMeaning(flat), keys, |keys|) && AllShort(FlatMeaning(flat), stride, keys, |keys|)
    requires !whole ==> Lost(FlatMeaning(flat), stride, got, keys, |keys|)
    ensures got == FlatMeaning(flat) <==> RunsFit(FlatMeaning(flat), stride)
    ensures whole <==> RunsFit(FlatMeaning(flat), stride)
  {
    var d := FlatMeaning(flat);
    assert keys[..|keys|] == keys;
    if whole {
      assert got == d;
      forall b: nat ensures !Chain(d, stride, b, MAX_RUN) {
        assert Chain(d, stride, b, MAX_RUN) ==> Linked(d, stride, b);
      }
    } else {
      assert got != d;
    }
  }

  lemma StillLost(d: map<nat, Loc>, stride: nat, got: map<nat, Loc>, keys: seq<nat>, i: nat, j: nat,
                  cells: map<nat, Loc>, e: Extent, s: nat)
    requires i < j <= |keys| && Increasing(keys) && Lost(d, stride, got, keys, i)
    requires e.Ok() && e.start == keys[i] && cells == Cells(e, s)
    ensures Lost(d, stride, got + cells, keys, j)
  {
    var b :| b in keys[..i] && b !in got;
    SumAt(got, cells, b);
    assert b in keys[..j];
  }

  // ----- Loading a whole checkpoint -----

  /** One past the highest chunk referenced, or the given counter if that is higher. */
  method NextObject(records: seq<Record>, objectNum: nat) returns (next: nat)
    ensures next >= objectNum
    ensures forall i :: 0 <= i < |records| ==> records[i].chunk < next
    ensures next == objectNum || exists i :: 0 <= i < |records| && next == records[i].chunk + 1
  {
    next := objectNum;
    for i := 0 to |records|
      invariant next >= objectNum
      invariant forall x :: 0 <= x < i ==> records[x].chunk < next
      invariant next == objectNum || exists x :: 0 <= x < i && next == records[x].chunk + 1
    {
      if records[i].chunk + 1 > next {
        next := records[i].chunk + 1;
      }
    }
  }

  lemma {:induction false} CollectFrom(records: seq<Record>, b: nat)
    requires b in Collect(records)
    ensures Collect(records)[b] in records
  {
    var n := |records| - 1;
    if records[n].start != b {
      CollectFrom(records[..n], b);
      assert records[..n] <= records;
    }
  }

  /**
   Reads a checkpoint back. Fails exactly when the bytes do not walk; otherwise
   the rebuilt map means what the records say whenever every run fits.
   */
  method LoadCheckpoint(crc: Checksum, raw: seq<byte>, version: nat, stride: nat, objectNum: nat)
    returns (ok: bool, m: Index, next: nat)
    ensures ok <==> Walk(crc, raw, version).Ok?
    ensures WellFormed(m) && next >= objectNum && (objectNum <= Capacity(8) ==> next <= Capacity(8))
    ensures !ok ==> next == objectNum
    ensures ok ==>
      var d := FlatMeaning(Collect(Walk(crc, raw, version).value));
      && (Denote(m, stride) == d <==> RunsFit(d, stride)) && (RunsFit(d, stride) ==> Maximal(m, d, stride))
      && (forall b :: b in d ==> d[b].chunk < next)
    ensures ok && next != objectNum ==>
              exists i :: 0 <= i < |Walk(crc, raw, version).value| && next == Walk(crc, raw, version).value[i].chunk + 1
  {
    m, next := map[], objectNum;
    match Walk(crc, raw, version)
    case Err(_) =>
      ok := false;
    case Ok(records) =>
      ok := true;
      var flat := Collect(records);
      m := CoalesceBlockLookup(flat, stride);
      next := NextObject(records, objectNum);
      forall b | b in flat ensures flat[b].chunk < next {
        CollectFrom(records, b);
      }
  }
}
