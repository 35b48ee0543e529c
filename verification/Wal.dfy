/** The write-ahead log, plaintext and encrypted: record framing and recovery of a torn file. */
module Wal {
  import opened Bytes
  import opened Sealing
  import opened Blocks
  import opened Checkpoint

  const FILE_HEADER := 18
  const PREFIX := 24

  predicate Fits(x: Block, blockSize: nat)
  {
    x.seqNum < Capacity(8) && x.block < Capacity(8) && x.len < Capacity(8) && |x.data| == blockSize
  }

  predicate AllFit(blocks: seq<Block>, blockSize: nat)
  {
    forall i :: 0 <= i < |blocks| ==> Fits(blocks[i], blockSize)
  }

  // ----- One record -----

  function RecordSize(c: Cipher, blockSize: nat): (n: nat)
    ensures n > 0
  {
    PREFIX + if c.Plain? then 4 + blockSize else blockSize + TAG_SIZE
  }

  function Prefix(x: Block): (s: seq<byte>)
    requires x.seqNum < Capacity(8) && x.block < Capacity(8) && x.len < Capacity(8)
    ensures |s| == PREFIX
  {
    PutUint(8, x.seqNum) + PutUint(8, x.block) + PutUint(8, x.len)
  }

  /** [SeqNum(8) | BlockNum(8) | BlockLen(8)], then [CRC32(4) | data] or [ciphertext | tag(16)]. */
  function EncodeBlock(c: Cipher, crc: Checksum, x: Block, blockSize: nat): seq<byte>
    requires Fits(x, blockSize)
  {
    Capacities();
    match c
    case Plain => Prefix(x) + PutUint(4, crc(Prefix(x) + x.data)) + x.data
    case Aead(seal, _) => Prefix(x) + seal(x.seqNum, x.block, x.data)
  }

  function DecodeBlock(c: Cipher, crc: Checksum, s: seq<byte>): Option<Block>
    requires |s| >= PREFIX + 4
  {
    var seqNum, block, len := GetUint(s[..8]), GetUint(s[8..16]), GetUint(s[16..24]);
    match c
    case Plain =>
      if crc(s[..24] + s[28..]) != GetUint(s[24..28]) then None else Some(Block(seqNum, block, len, s[28..]))
    case Aead(_, open) =>
      match open(seqNum, block, s[24..])
      case None => None
      case Some(data) => Some(Block(seqNum, block, len, data))
  }

  lemma PrefixReads(x: Block, rest: seq<byte>)
    requires x.seqNum < Capacity(8) && x.block < Capacity(8) && x.len < Capacity(8)
    ensures var s := Prefix(x) + rest;
            && s[..24] == Prefix(x) && s[24..] == rest
            && GetUint(s[..8]) == x.seqNum && GetUint(s[8..16]) == x.block && GetUint(s[16..24]) == x.len
  {
    var s := Prefix(x) + rest;
    assert s[..8] == PutUint(8, x.seqNum) && s[8..16] == PutUint(8, x.block) && s[16..24] == PutUint(8, x.len);
    GetPut(8, x.seqNum);
    GetPut(8, x.block);
    GetPut(8, x.len);
  }

  lemma BlockRoundTrip(c: Cipher, crc: Checksum, x: Block, blockSize: nat)
    requires Fits(x, blockSize) && c.Opens(blockSize)
    ensures |EncodeBlock(c, crc, x, blockSize)| == RecordSize(c, blockSize)
    ensures DecodeBlock(c, crc, EncodeBlock(c, crc, x, blockSize)) == Some(x)
  {
    hide Prefix, GetUint, Capacity;
    Capacities();
    var s := EncodeBlock(c, crc, x, blockSize);
    match c
    case Plain =>
      var sum := PutUint(4, crc(Prefix(x) + x.data));
      assert s == Prefix(x) + (sum + x.data);
      PrefixReads(x, sum + x.data);
      assert s[24..28] == sum && s[28..] == x.data;
      GetPut(4, crc(Prefix(x) + x.data));
    case Aead(seal, _) =>
      PrefixReads(x, seal(x.seqNum, x.block, x.data));
  }

  lemma PrefixOf(x: Block, s: seq<byte>)
    requires |s| == PREFIX
    requires x.seqNum == GetUint(s[..8]) && x.block == GetUint(s[8..16]) && x.len == GetUint(s[16..24])
    ensures x.seqNum < Capacity(8) && x.block < Capacity(8) && x.len < Capacity(8) && Prefix(x) == s
  {
    PutGet(s[..8]);
    PutGet(s[8..16]);
    PutGet(s[16..24]);
    assert s == s[..8] + s[8..16] + s[16..24];
  }

  /** The bytes of one record of block x. A sealed payload is any that opens to its data. */
  ghost predicate IsRecord(c: Cipher, crc: Checksum, s: seq<byte>, x: Block, blockSize: nat)
  {
    && |s| == RecordSize(c, blockSize) && x.seqNum < Capacity(8) && x.block < Capacity(8) && x.len < Capacity(8)
    && match c
       case Plain => |x.data| == blockSize && s == EncodeBlock(c, crc, x, blockSize)
       case Aead(_, open) => s[..PREFIX] == Prefix(x) && open(x.seqNum, x.block, s[PREFIX..]) == Some(x.data)
  }

  lemma PlainCanonical(crc: Checksum, s: seq<byte>, x: Block, blockSize: nat)
    requires |s| == RecordSize(Plain, blockSize) && DecodeBlock(Plain, crc, s) == Some(x)
    ensures Fits(x, blockSize) && s == EncodeBlock(Plain, crc, x, blockSize)
  {
    hide GetUint, Capacity, Prefix;
    assert s[..24][..8] == s[..8] && s[..24][8..16] == s[8..16] && s[..24][16..24] == s[16..24];
    PrefixOf(x, s[..24]);
    PutGet(s[24..28]);
    Capacities();
    assert s == s[..24] + s[24..28] + s[28..];
  }

  lemma SealedCanonical(c: Cipher, crc: Checksum, s: seq<byte>, x: Block, blockSize: nat)
    requires c.Aead? && |s| == RecordSize(c, blockSize) && DecodeBlock(c, crc, s) == Some(x)
    ensures IsRecord(c, crc, s, x, blockSize)
  {
    hide GetUint, Capacity, Prefix;
    assert s[..24][..8] == s[..8] && s[..24][8..16] == s[8..16] && s[..24][16..24] == s[16..24];
    PrefixOf(x, s[..24]);
  }

  /** Decoding accepts exactly the records: whatever else is in a record's place is refused. */
  lemma BlockCanonical(c: Cipher, crc: Checksum, s: seq<byte>, x: Block, blockSize: nat)
    requires |s| == RecordSize(c, blockSize)
    ensures DecodeBlock(c, crc, s) == Some(x) <==> IsRecord(c, crc, s, x, blockSize)
  {
    hide GetUint, Capacity, Prefix;
    if DecodeBlock(c, crc, s) == Some(x) {
      if c.Plain? {
        PlainCanonical(crc, s, x, blockSize);
      } else {
        SealedCanonical(c, crc, s, x, blockSize);
      }
    }
    if IsRecord(c, crc, s, x, blockSize) {
      if c.Plain? {
        BlockRoundTrip(c, crc, x, blockSize);
      } else {
        PrefixReads(x, s[PREFIX..]);
        assert s == s[..PREFIX] + s[PREFIX..];
      }
    }
  }

  // ----- A log -----

  function EncodeLog(c: Cipher, crc: Checksum, blocks: seq<Block>, blockSize: nat): seq<byte>
    requires AllFit(blocks, blockSize)
  {
    if |blocks| == 0 then []
    else EncodeBlock(c, crc, blocks[0], blockSize) + EncodeLog(c, crc, blocks[1..], blockSize)
  }

  /**
   The records a reader accepts. A short tail ends the log. A damaged record ends
   a plaintext log, and refuses an encrypted one.
   */
  function Recovered(c: Cipher, crc: Checksum, body: seq<byte>, blockSize: nat): Result<seq<Block>>
    decreases |body|
  {
    var size := RecordSize(c, blockSize);
    if |body| < size then Ok([])
    else
      match DecodeBlock(c, crc, body[..size])
      case None => if c.Plain? then Ok([]) else Err("integrity")
      case Some(x) => Prepend([x], Recovered(c, crc, body[size..], blockSize))
  }

  /** How many whole records fit before a cut. */
  function WholeBefore(cut: nat, size: nat): (n: nat)
    requires size > 0
    ensures Times(n, size) <= cut < Times(n + 1, size)
  {
    if cut < size then 0 else WholeBefore(cut - size, size) + 1
  }

  /** An accepted encrypted log gave up every whole record: nothing is dropped silently. */
  lemma {:induction false} SealedKeepsAll(c: Cipher, crc: Checksum, body: seq<byte>, blockSize: nat)
    requires c.Aead?
    ensures Recovered(c, crc, body, blockSize).Ok? ==>
              |Recovered(c, crc, body, blockSize).value| == WholeBefore(|body|, RecordSize(c, blockSize))
    decreases |body|
  {
    if |body| >= RecordSize(c, blockSize) {
      SealedKeepsAll(c, crc, body[RecordSize(c, blockSize)..], blockSize);
    }
  }

  // ----- What recovery returns, in terms of the bytes -----

  /** The body starts with the records of these blocks. */
  ghost predicate StartsWith(c: Cipher, crc: Checksum, body: seq<byte>, blocks: seq<Block>, blockSize: nat)
  {
    var size := RecordSize(c, blockSize);
    |blocks| == 0 || (|body| >= size && IsRecord(c, crc, body[..size], blocks[0], blockSize)
                      && StartsWith(c, crc, body[size..], blocks[1..], blockSize))
  }

  /** What is left of the body after so many records. */
  ghost function Behind(c: Cipher, body: seq<byte>, n: nat, blockSize: nat): seq<byte>
  {
    if n == 0 || |body| < RecordSize(c, blockSize) then body
    else Behind(c, body[RecordSize(c, blockSize)..], n - 1, blockSize)
  }

  ghost predicate SomeRecord(c: Cipher, crc: Checksum, body: seq<byte>, blockSize: nat)
  {
    |body| >= RecordSize(c, blockSize)
    && exists x :: IsRecord(c, crc, body[..RecordSize(c, blockSize)], x, blockSize)
  }

  /** These are all the records at the front of the body: no further record follows. */
  ghost predicate LongestLog(c: Cipher, crc: Checksum, body: seq<byte>, blocks: seq<Block>, blockSize: nat)
  {
    && StartsWith(c, crc, body, blocks, blockSize)
    && !SomeRecord(c, crc, Behind(c, body, |blocks|, blockSize), blockSize)
  }

  lemma SomeDecodes(c: Cipher, crc: Checksum, body: seq<byte>, blockSize: nat)
    requires |body| >= RecordSize(c, blockSize)
    ensures SomeRecord(c, crc, body, blockSize) <==> DecodeBlock(c, crc, body[..RecordSize(c, blockSize)]).Some?
  {
    hide DecodeBlock, IsRecord;
    var s := body[..RecordSize(c, blockSize)];
    if x :| IsRecord(c, crc, s, x, blockSize) {
      BlockCanonical(c, crc, s, x, blockSize);
    }
    if DecodeBlock(c, crc, s).Some? {
      BlockCanonical(c, crc, s, DecodeBlock(c, crc, s).value, blockSize);
    }
  }

  /** A plain log gives up exactly the longest run of whole records at its front. */
  lemma {:induction false} PlainRecoversLongest(crc: Checksum, body: seq<byte>, blocks: seq<Block>, blockSize: nat)
    ensures Recovered(Plain, crc, body, blockSize) == Ok(blocks) <==> LongestLog(Plain, crc, body, blocks, blockSize)
    ensures Recovered(Plain, crc, body, blockSize).Ok?
    decreases |body|
  {
    hide DecodeBlock, IsRecord, SomeRecord;
    var size := RecordSize(Plain, blockSize);
    if |body| < size {
      assert !SomeRecord(Plain, crc, body, blockSize) by { TooShort(Plain, crc, body, blockSize); }
    } else {
      var s, rest := body[..size], body[size..];
      SomeDecodes(Plain, crc, body, blockSize);
      var first := DecodeBlock(Plain, crc, s);
      if first.Some? {
        BlockCanonical(Plain, crc, s, first.value, blockSize);
        PlainRecoversLongest(crc, rest, if |blocks| > 0 then blocks[1..] else [], blockSize);
        if |blocks| > 0 {
          BlockCanonical(Plain, crc, s, blocks[0], blockSize);
          assert blocks == [blocks[0]] + blocks[1..];
        }
      } else if |blocks| > 0 {
        BlockCanonical(Plain, crc, s, blocks[0], blockSize);
      }
    }
  }

  /** Starting with these records is starting with the log that encodes them. */
  lemma {:induction false} StartsWithLog(crc: Checksum, body: seq<byte>, blocks: seq<Block>, blockSize: nat)
    ensures StartsWith(Plain, crc, body, blocks, blockSize)
       <==> AllFit(blocks, blockSize) && EncodeLog(Plain, crc, blocks, blockSize) <= body
  {
    hide Prefix, Capacity, Fits, EncodeBlock, DecodeBlock;
    if |blocks| > 0 {
      var size := RecordSize(Plain, blockSize);
      FitsFirst(blocks, blockSize);
      if |body| >= size {
        StartsWithLog(crc, body[size..], blocks[1..], blockSize);
        FirstIs(crc, body[..size], blocks[0], blockSize);
        assert body == body[..size] + body[size..];
      }
      if Fits(blocks[0], blockSize) {
        BlockRoundTrip(Plain, crc, blocks[0], blockSize);
      }
    }
  }

  lemma FitsFirst(blocks: seq<Block>, blockSize: nat)
    requires |blocks| > 0
    ensures AllFit(blocks, blockSize) <==> Fits(blocks[0], blockSize) && AllFit(blocks[1..], blockSize)
  {
    assert forall i :: 0 < i < |blocks| ==> blocks[i] == blocks[1..][i - 1];
  }

  lemma FirstIs(crc: Checksum, s: seq<byte>, x: Block, blockSize: nat)
    requires |s| == RecordSize(Plain, blockSize)
    ensures IsRecord(Plain, crc, s, x, blockSize)
       <==> Fits(x, blockSize) && s == EncodeBlock(Plain, crc, x, blockSize)
  {
  }

  lemma TooShort(c: Cipher, crc: Checksum, body: seq<byte>, blockSize: nat)
    requires |body| < RecordSize(c, blockSize)
    ensures !SomeRecord(c, crc, body, blockSize)
  {
  }

  /** A sealed log is accepted exactly when every whole record opens, and gives up all of them. */
  lemma {:induction false} SealedRecoversAll(c: Cipher, crc: Checksum, body: seq<byte>, blocks: seq<Block>,
                                             blockSize: nat)
    requires c.Aead?
    ensures Recovered(c, crc, body, blockSize) == Ok(blocks)
       <==> && StartsWith(c, crc, body, blocks, blockSize)
            && |Behind(c, body, |blocks|, blockSize)| < RecordSize(c, blockSize)
    decreases |body|
  {
    hide DecodeBlock, IsRecord;
    var size := RecordSize(c, blockSize);
    if |body| >= size {
      var s, rest := body[..size], body[size..];
      if |blocks| > 0 {
        BlockCanonical(c, crc, s, blocks[0], blockSize);
        SealedRecoversAll(c, crc, rest, blocks[1..], blockSize);
        assert blocks == [blocks[0]] + blocks[1..];
      }
    }
  }

  /** Cutting a log of one record and more past that record cuts the rest. */
  lemma CutRest(first: seq<byte>, rest: seq<byte>, cut: nat)
    requires |first| <= cut <= |first| + |rest|
    ensures (first + rest)[..cut][..|first|] == first && (first + rest)[..cut][|first|..] == rest[..cut - |first|]
  {
  }

  lemma TakeOneMore(blocks: seq<Block>, n: nat)
    requires n < |blocks|
    ensures blocks[..n + 1] == [blocks[0]] + blocks[1..][..n]
  {
  }

  /** A log cut at any byte gives back exactly the records that end before the cut. */
  lemma {:induction false} TornLogRecovers(c: Cipher, crc: Checksum, blocks: seq<Block>, blockSize: nat, cut: nat)
    requires AllFit(blocks, blockSize) && c.Opens(blockSize) && cut <= |EncodeLog(c, crc, blocks, blockSize)|
    ensures WholeBefore(cut, RecordSize(c, blockSize)) <= |blocks|
    ensures Recovered(c, crc, EncodeLog(c, crc, blocks, blockSize)[..cut], blockSize)
         == Ok(blocks[..WholeBefore(cut, RecordSize(c, blockSize))])
  {
    hide Cipher.Opens, EncodeBlock, DecodeBlock, Times;
    var size := RecordSize(c, blockSize);
    if |blocks| > 0 {
      var first, rest := EncodeBlock(c, crc, blocks[0], blockSize), EncodeLog(c, crc, blocks[1..], blockSize);
      BlockRoundTrip(c, crc, blocks[0], blockSize);
      if cut >= size {
        CutRest(first, rest, cut);
        TornLogRecovers(c, crc, blocks[1..], blockSize, cut - size);
        TakeOneMore(blocks, WholeBefore(cut - size, size));
      }
    }
  }

  lemma {:induction false} LogLength(c: Cipher, crc: Checksum, blocks: seq<Block>, blockSize: nat)
    requires AllFit(blocks, blockSize) && c.Opens(blockSize)
    ensures WholeBefore(|EncodeLog(c, crc, blocks, blockSize)|, RecordSize(c, blockSize)) == |blocks|
  {
    hide Cipher.Opens, EncodeBlock, Times;
    if |blocks| > 0 {
      BlockRoundTrip(c, crc, blocks[0], blockSize);
      LogLength(c, crc, blocks[1..], blockSize);
    }
  }

  /** How many bytes a log takes: what its file's size tells. */
  lemma {:induction false} LogBytes(c: Cipher, crc: Checksum, blocks: seq<Block>, blockSize: nat)
    requires AllFit(blocks, blockSize) && c.Opens(blockSize)
    ensures |EncodeLog(c, crc, blocks, blockSize)| == Times(|blocks|, RecordSize(c, blockSize))
  {
    hide Cipher.Opens, EncodeBlock;
    if |blocks| > 0 {
      BlockRoundTrip(c, crc, blocks[0], blockSize);
      LogBytes(c, crc, blocks[1..], blockSize);
    }
  }

  // ----- A file -----

  function Magic(c: Cipher): seq<byte>
  {
    if c.Plain? then [86, 66, 87, 76] else [86, 66, 87, 69]
  }

  function FileHeader(c: Cipher, version: nat, blockSize: nat, timestamp: nat): (s: seq<byte>)
    requires version < Capacity(2) && blockSize < Capacity(4) && timestamp < Capacity(8)
    ensures |s| == FILE_HEADER
  {
    Magic(c) + PutUint(2, version) + PutUint(4, blockSize) + PutUint(8, timestamp)
  }

  predicate HeaderOk(c: Cipher, raw: seq<byte>, version: nat, blockSize: nat)
  {
    && |raw| >= FILE_HEADER && raw[..4] == Magic(c)
    && GetUint(raw[4..6]) == version && GetUint(raw[6..10]) == blockSize
  }

  function FileRecords(c: Cipher, crc: Checksum, raw: seq<byte>, version: nat, blockSize: nat): Result<seq<Block>>
  {
    if HeaderOk(c, raw, version, blockSize) then Recovered(c, crc, raw[FILE_HEADER..], blockSize) else Err("header")
  }

  lemma PrependTwice(blocks: seq<Block>, x: Block, r: Result<seq<Block>>)
    ensures Prepend(blocks, Prepend([x], r)) == Prepend(blocks + [x], r)
  {
    if r.Ok? {
      assert blocks + ([x] + r.value) == (blocks + [x]) + r.value;
    }
  }

  lemma PrependNothing(r: Result<seq<Block>>)
    ensures Prepend([], r) == r
  {
    if r.Ok? {
      assert [] + r.value == r.value;
    }
  }

  /**
   Replays one log file, tolerating a torn tail. A bad header is an error, and so
   is a whole record that does not open; a failed checksum only ends the replay.
   */
  method ReadWALFileForRecovery(c: Cipher, crc: Checksum, raw: seq<byte>, version: nat, blockSize: nat)
    returns (r: Result<seq<Block>>, maxSeqNum: nat)
    ensures r == FileRecords(c, crc, raw, version, blockSize)
    ensures r.Ok? ==> FileHolds(c, crc, raw, version, blockSize, r.value)
    ensures r == Err("header") <==> !HasFileHeader(c, raw, version, blockSize)
    ensures r.Err? ==> maxSeqNum == 0
    ensures r.Ok? ==> forall i :: 0 <= i < |r.value| ==> r.value[i].seqNum <= maxSeqNum
    ensures r.Ok? ==> maxSeqNum == 0 || exists i :: 0 <= i < |r.value| && r.value[i].seqNum == maxSeqNum
  {
    hide DecodeBlock, GetUint, FileHolds, HasFileHeader;
    FileRead(c, crc, raw, version, blockSize);
    if |raw| < FILE_HEADER || raw[..4] != Magic(c) || GetUint(raw[4..6]) != version
        || GetUint(raw[6..10]) != blockSize {
      return Err("header"), 0;
    }
    var size := RecordSize(c, blockSize);
    var blocks: seq<Block>, rest := [], raw[FILE_HEADER..];
    maxSeqNum := 0;
    PrependNothing(Recovered(c, crc, rest, blockSize));
    while |rest| >= size
      invariant FileRecords(c, crc, raw, version, blockSize) == Prepend(blocks, Recovered(c, crc, rest, blockSize))
      invariant forall i :: 0 <= i < |blocks| ==> blocks[i].seqNum <= maxSeqNum
      invariant maxSeqNum == 0 || exists i :: 0 <= i < |blocks| && blocks[i].seqNum == maxSeqNum
      decreases |rest|
    {
      match DecodeBlock(c, crc, rest[..size])
      case None =>
        if !c.Plain? {
          return Err("integrity"), 0;
        }
        assert blocks + [] == blocks;
        return Ok(blocks), maxSeqNum;
      case Some(x) =>
        PrependTwice(blocks, x, Recovered(c, crc, rest[size..], blockSize));
        ghost var before := blocks;
        blocks, rest := blocks + [x], rest[size..];
        assert blocks[|before|] == x && forall i :: 0 <= i < |before| ==> blocks[i] == before[i];
        maxSeqNum := if x.seqNum > maxSeqNum then x.seqNum else maxSeqNum;
    }
    assert blocks + [] == blocks;
    r := Ok(blocks);
  }

  lemma FileHeaderReads(c: Cipher, version: nat, blockSize: nat, timestamp: nat, body: seq<byte>)
    requires version < Capacity(2) && blockSize < Capacity(4) && timestamp < Capacity(8)
    ensures var raw := FileHeader(c, version, blockSize, timestamp) + body;
            && HeaderOk(c, raw, version, blockSize) && raw[FILE_HEADER..] == body
            && Spells(raw[..4], if c.Plain? then "VBWL" else "VBWE")
  {
    var raw := FileHeader(c, version, blockSize, timestamp) + body;
    assert raw[4..6] == PutUint(2, version);
    assert raw[6..10] == PutUint(4, blockSize);
    GetPut(2, version);
    GetPut(4, blockSize);
  }

  /** A whole file cut anywhere after its header. */
  lemma TornFileRecovers(c: Cipher, crc: Checksum, version: nat, blockSize: nat, timestamp: nat, blocks: seq<Block>,
                         cut: nat)
    requires version < Capacity(2) && blockSize < Capacity(4) && timestamp < Capacity(8)
    requires AllFit(blocks, blockSize) && c.Opens(blockSize)
    requires FILE_HEADER <= cut <= FILE_HEADER + |EncodeLog(c, crc, blocks, blockSize)|
    ensures var raw := (FileHeader(c, version, blockSize, timestamp) + EncodeLog(c, crc, blocks, blockSize))[..cut];
            var n := WholeBefore(cut - FILE_HEADER, RecordSize(c, blockSize));
            n <= |blocks| && FileRecords(c, crc, raw, version, blockSize) == Ok(blocks[..n])
  {
    hide Cipher.Opens, EncodeLog, FileHeader, HeaderOk, Recovered;
    var header, log := FileHeader(c, version, blockSize, timestamp), EncodeLog(c, crc, blocks, blockSize);
    assert (header + log)[..cut] == header + log[..cut - FILE_HEADER];
    FileHeaderReads(c, version, blockSize, timestamp, log[..cut - FILE_HEADER]);
    TornLogRecovers(c, crc, blocks, blockSize, cut - FILE_HEADER);
  }

  /** The file starts with a header written for this cipher, version and block size, at any time. */
  ghost predicate HasFileHeader(c: Cipher, raw: seq<byte>, version: nat, blockSize: nat)
  {
    && version < Capacity(2) && blockSize < Capacity(4) && |raw| >= FILE_HEADER
    && exists t :: 0 <= t < Capacity(8) && raw[..FILE_HEADER] == FileHeader(c, version, blockSize, t)
  }

  lemma FileHeaderCanonical(c: Cipher, raw: seq<byte>, version: nat, blockSize: nat)
    ensures HeaderOk(c, raw, version, blockSize) <==> HasFileHeader(c, raw, version, blockSize)
  {
    hide Capacity, GetUint, PutUint;
    if HeaderOk(c, raw, version, blockSize) {
      var t := GetUint(raw[10..18]);
      PutGet(raw[4..6]);
      PutGet(raw[6..10]);
      PutGet(raw[10..18]);
      assert raw[..18] == raw[..4] + raw[4..6] + raw[6..10] + raw[10..18];
      assert raw[..FILE_HEADER] == FileHeader(c, version, blockSize, t);
    }
    if HasFileHeader(c, raw, version, blockSize) {
      var t :| 0 <= t < Capacity(8) && raw[..FILE_HEADER] == FileHeader(c, version, blockSize, t);
      FileHeaderReads(c, version, blockSize, t, raw[FILE_HEADER..]);
      assert raw == raw[..FILE_HEADER] + raw[FILE_HEADER..];
    }
  }

  /** The records of a file by its bytes alone: of a plain one the longest run, of a sealed one all of them. */
  ghost predicate FileHolds(c: Cipher, crc: Checksum, raw: seq<byte>, version: nat, blockSize: nat, blocks: seq<Block>)
  {
    && HasFileHeader(c, raw, version, blockSize)
    && (if c.Plain? then LongestLog(c, crc, raw[FILE_HEADER..], blocks, blockSize)
        else StartsWith(c, crc, raw[FILE_HEADER..], blocks, blockSize)
             && |Behind(c, raw[FILE_HEADER..], |blocks|, blockSize)| < RecordSize(c, blockSize))
  }

  /** What is read from any file: exactly the records it holds, and an error of the header only for a bad header. */
  lemma FileExact(c: Cipher, crc: Checksum, raw: seq<byte>, version: nat, blockSize: nat, blocks: seq<Block>)
    ensures FileRecords(c, crc, raw, version, blockSize) == Ok(blocks)
       <==> FileHolds(c, crc, raw, version, blockSize, blocks)
    ensures FileRecords(c, crc, raw, version, blockSize) == Err("header")
       <==> !HasFileHeader(c, raw, version, blockSize)
    ensures var r := FileRecords(c, crc, raw, version, blockSize); r.Ok? || r == Err("header") || r == Err("integrity")
  {
    hide HeaderOk, HasFileHeader, LongestLog, StartsWith, Behind, DecodeBlock, RecordSize;
    FileHeaderCanonical(c, raw, version, blockSize);
    if |raw| >= FILE_HEADER {
      OnlyIntegrity(c, crc, raw[FILE_HEADER..], blockSize);
      if c.Plain? {
        PlainRecoversLongest(crc, raw[FILE_HEADER..], blocks, blockSize);
      } else {
        SealedRecoversAll(c, crc, raw[FILE_HEADER..], blocks, blockSize);
      }
    } else {
      assert !HeaderOk(c, raw, version, blockSize) by { ShortHeader(c, raw, version, blockSize); }
    }
  }

  lemma FileRead(c: Cipher, crc: Checksum, raw: seq<byte>, version: nat, blockSize: nat)
    ensures var r := FileRecords(c, crc, raw, version, blockSize);
            && (r.Ok? ==> FileHolds(c, crc, raw, version, blockSize, r.value))
            && (r == Err("header") <==> !HasFileHeader(c, raw, version, blockSize))
  {
    hide FileRecords, FileHolds, HasFileHeader;
    var r := FileRecords(c, crc, raw, version, blockSize);
    FileExact(c, crc, raw, version, blockSize, if r.Ok? then r.value else []);
  }

  lemma ShortHeader(c: Cipher, raw: seq<byte>, version: nat, blockSize: nat)
    requires |raw| < FILE_HEADER
    ensures !HeaderOk(c, raw, version, blockSize)
  {
  }

  lemma {:induction false} OnlyIntegrity(c: Cipher, crc: Checksum, body: seq<byte>, blockSize: nat)
    ensures var r := Recovered(c, crc, body, blockSize); r.Ok? || r == Err("integrity")
    decreases |body|
  {
    hide DecodeBlock;
    var size := RecordSize(c, blockSize);
    if |body| >= size {
      OnlyIntegrity(c, crc, body[size..], blockSize);
    }
  }

  /** A file written sealed is never read as plain, nor the other way round. */
  lemma KindsApart(c: Cipher, other: Cipher, crc: Checksum, raw: seq<byte>, version: nat, blockSize: nat)
    requires c.Plain? != other.Plain? && FileRecords(c, crc, raw, version, blockSize) != Err("header")
    ensures FileRecords(other, crc, raw, version, blockSize) == Err("header")
  {
    assert raw[3] == Magic(c)[3];
  }
}
