/** Nonces and associated data of the encrypted formats. */
module Crypto {
  import opened Bytes

  const MAX_SEQNUM := 0xFF_FFFF_FFFF_FFFF
  const AAD_LENGTH := 48
  const HASH_LENGTH := 32

  datatype Domain = Chunk | Wal | VBStateMeta | SnapshotMeta
  {
    function Code(): byte
    {
      match this
      case Chunk => 0
      case Wal => 1
      case VBStateMeta => 2
      case SnapshotMeta => 3
    }
  }

  type Uuid = u: seq<byte> | |u| == 4 witness [0, 0, 0, 0]
  type Hash = h: seq<byte> | |h| == HASH_LENGTH witness seq(HASH_LENGTH, _ => 0)

  // ----- Nonces -----

  /** v shifted right by i bytes. */
  function Shifted(v: nat, i: nat): nat
  {
    if i == 0 then v else Shifted(v / 256, i - 1)
  }

  function ByteOf(v: nat, i: nat): byte
  {
    Shifted(v, i) % 256
  }

  /** Seven bytes shifted out of the SeqNum, then the volume, then the domain. */
  function MakeNonce(seqNum: nat, uuid: Uuid, domain: Domain): (n: seq<byte>)
    ensures |n| == 12
  {
    [ByteOf(seqNum, 6), ByteOf(seqNum, 5), ByteOf(seqNum, 4), ByteOf(seqNum, 3), ByteOf(seqNum, 2),
     ByteOf(seqNum, 1), ByteOf(seqNum, 0)]
    + uuid + [domain.Code()]
  }

  /** The first seven bytes are the low 56 bits, big-endian; the volume and the domain follow. */
  lemma NonceCounter(seqNum: nat, uuid: Uuid, domain: Domain)
    ensures var n := MakeNonce(seqNum, uuid, domain);
            GetUint(n[..7]) == seqNum % Capacity(7) && n[7..11] == uuid && n[11] == domain.Code()
  {
    LowBytes(seqNum, 7);
    var n, s := MakeNonce(seqNum, uuid, domain), LowEnd(seqNum, 7);
    forall i | 0 <= i < 7 ensures n[i] == s[i] {
      LowEndAt(seqNum, 7, i);
    }
    assert n[..7] == s;
  }

  /** The low n bytes of v, most significant first. */
  function LowEnd(v: nat, n: nat): (s: seq<byte>)
    ensures |s| == n
  {
    if n == 0 then [] else LowEnd(v / 256, n - 1) + [ByteOf(v, 0)]
  }

  lemma {:induction false} LowEndAt(v: nat, n: nat, i: nat)
    requires i < n
    ensures LowEnd(v, n)[i] == ByteOf(v, n - 1 - i)
  {
    if i < n - 1 {
      LowEndAt(v / 256, n - 1, i);
    }
  }

  lemma {:induction false} LowBytes(v: nat, n: nat)
    ensures GetUint(LowEnd(v, n)) == v % Capacity(n)
  {
    if n != 0 {
      var s := LowEnd(v, n);
      assert s[..n - 1] == LowEnd(v / 256, n - 1);
      LowBytes(v / 256, n - 1);
      ModStep(v, Capacity(n - 1));
    }
  }

  lemma ModStep(v: nat, c: nat)
    requires c > 0
    ensures v % (256 * c) == 256 * ((v / 256) % c) + v % 256
  {
    var q, m := v / 256, 256 * c;
    DivTimes(q, c);
    DivTimes(v, m);
    TimesScale(q / c, 256, c, m);
    TimesUnique(v / m, v % m, q / c, 256 * (q % c) + v % 256, m);
  }

  /** Two nonces are equal exactly when volume, domain and the low 56 bits of the SeqNum are. */
  lemma NonceInjective(a: nat, u: Uuid, d: Domain, a': nat, u': Uuid, d': Domain)
    ensures MakeNonce(a, u, d) == MakeNonce(a', u', d') <==> a % Capacity(7) == a' % Capacity(7) && u == u' && d == d'
  {
    var n, n' := MakeNonce(a, u, d), MakeNonce(a', u', d');
    NonceCounter(a, u, d);
    NonceCounter(a', u', d');
    assert n[7..11] == u && n'[7..11] == u' && n[11] == d.Code() && n'[11] == d'.Code();
    assert n == n[..7] + n[7..11] + [n[11]] && n' == n'[..7] + n'[7..11] + [n'[11]];
    if a % Capacity(7) == a' % Capacity(7) {
      PutGet(n[..7]);
      PutGet(n'[..7]);
    }
  }

  /** Up to MAX_SEQNUM the SeqNum itself is determined, and no further. */
  lemma NonceDeterminesSeqNum(a: nat, u: Uuid, d: Domain, a': nat, u': Uuid, d': Domain)
    requires a <= MAX_SEQNUM && a' <= MAX_SEQNUM
    ensures MakeNonce(a, u, d) == MakeNonce(a', u', d') <==> a == a' && u == u' && d == d'
    ensures MakeNonce(MAX_SEQNUM + 1 + a, u, d) == MakeNonce(a, u, d)
  {
    hide MakeNonce, Capacity;
    Capacities();
    NonceInjective(MAX_SEQNUM + 1 + a, u, d, a, u, d);
    NonceInjective(a, u, d, a', u', d');
  }

  // ----- Associated data -----

  function MakeAAD(hash: Hash, block: nat, seqNum: nat): (s: seq<byte>)
    requires block < Capacity(8) && seqNum < Capacity(8)
    ensures |s| == AAD_LENGTH
  {
    hash + PutUint(8, block) + PutUint(8, seqNum)
  }

  lemma AADInjective(h: Hash, b: nat, s: nat, h': Hash, b': nat, s': nat)
    requires b < Capacity(8) && s < Capacity(8) && b' < Capacity(8) && s' < Capacity(8)
    ensures MakeAAD(h, b, s) == MakeAAD(h', b', s') <==> h == h' && b == b' && s == s'
  {
    var x, y := MakeAAD(h, b, s), MakeAAD(h', b', s');
    assert x[..32] == h && x[32..40] == PutUint(8, b) && x[40..48] == PutUint(8, s);
    assert y[..32] == h' && y[32..40] == PutUint(8, b') && y[40..48] == PutUint(8, s');
    GetPut(8, b);
    GetPut(8, s);
    GetPut(8, b');
    GetPut(8, s');
  }

  /** Writes s into a from position at on. */
  method CopyInto(a: array<byte>, at: nat, s: seq<byte>)
    requires at + |s| <= a.Length
    modifies a
    ensures a[..] == old(a[..at]) + s + old(a[at + |s|..])
  {
    for i := 0 to |s|
      invariant a[..at] == old(a[..at]) && a[at + i..] == old(a[at + i..])
      invariant a[at..at + i] == s[..i]
    {
      a[at + i] := s[i];
      assert a[at..at + i + 1] == a[at..at + i] + [s[i]];
    }
    assert a[..] == a[..at] + a[at..at + |s|] + a[at + |s|..];
  }

  method InitAAD(aad: array<byte>, hash: Hash)
    requires aad.Length == AAD_LENGTH
    modifies aad
    ensures aad[..HASH_LENGTH] == hash && aad[HASH_LENGTH..] == old(aad[HASH_LENGTH..])
  {
    CopyInto(aad, 0, hash);
  }

  method UpdateAAD(aad: array<byte>, block: nat, seqNum: nat)
    requires aad.Length == AAD_LENGTH && block < Capacity(8) && seqNum < Capacity(8)
    modifies aad
    ensures aad[..] == old(aad[..HASH_LENGTH]) + PutUint(8, block) + PutUint(8, seqNum)
  {
    CopyInto(aad, 32, PutUint(8, block));
    ghost var middle := aad[..];
    CopyInto(aad, 40, PutUint(8, seqNum));
    assert middle[..40] == old(aad[..HASH_LENGTH]) + PutUint(8, block);
  }

  /** One buffer reused over any list of blocks gives each the same data as a fresh one. */
  method ReuseAAD(hash: Hash, keys: seq<(nat, nat)>) returns (all: seq<seq<byte>>)
    requires forall i :: 0 <= i < |keys| ==> keys[i].0 < Capacity(8) && keys[i].1 < Capacity(8)
    ensures |all| == |keys| && forall i :: 0 <= i < |keys| ==> all[i] == MakeAAD(hash, keys[i].0, keys[i].1)
  {
    var aad := new byte[AAD_LENGTH](_ => 0);
    InitAAD(aad, hash);
    all := [];
    for i := 0 to |keys|
      invariant aad[..HASH_LENGTH] == hash
      invariant |all| == i && forall k :: 0 <= k < i ==> all[k] == MakeAAD(hash, keys[k].0, keys[k].1)
    {
      UpdateAAD(aad, keys[i].0, keys[i].1);
      all := all + [aad[..]];
      assert aad[..HASH_LENGTH] == aad[..][..HASH_LENGTH];
    }
  }

  function MakeMetaAAD(hash: Hash, tag: seq<byte>, stateSeqNum: nat): (s: seq<byte>)
    requires stateSeqNum < Capacity(8)
    ensures |s| == HASH_LENGTH + |tag| + 8
  {
    hash + tag + PutUint(8, stateSeqNum)
  }

  lemma MetaAADInjective(h: Hash, t: seq<byte>, n: nat, h': Hash, t': seq<byte>, n': nat)
    requires n < Capacity(8) && n' < Capacity(8)
    ensures MakeMetaAAD(h, t, n) == MakeMetaAAD(h', t', n') <==> h == h' && t == t' && n == n'
  {
    var x, y := MakeMetaAAD(h, t, n), MakeMetaAAD(h', t', n');
    assert x[..32] == h && x[32..|x| - 8] == t && x[|x| - 8..] == PutUint(8, n);
    assert y[..32] == h' && y[32..|y| - 8] == t' && y[|y| - 8..] == PutUint(8, n');
    GetPut(8, n);
    GetPut(8, n');
  }

  /** Metadata and block data share associated data only if the tag spells the block number. */
  lemma MetaMeetsData(h: Hash, t: seq<byte>, n: nat, h': Hash, b: nat, s: nat)
    requires n < Capacity(8) && b < Capacity(8) && s < Capacity(8)
    ensures MakeMetaAAD(h, t, n) == MakeAAD(h', b, s) <==> h == h' && t == PutUint(8, b) && n == s
  {
    if |t| == 8 {
      PutGet(t);
      AADInjective(h, GetUint(t), n, h', b, s);
      assert MakeMetaAAD(h, t, n) == MakeAAD(h, GetUint(t), n);
      GetPut(8, b);
    }
  }
}
