/** Bytes and the big-endian unsigned integers every on-disk format is built from. */
module Bytes {

  type byte = x: int | 0 <= x < 256

  datatype Option<+T> = None | Some(value: T)

  datatype Result<+T> = Ok(value: T) | Err(reason: string)

  function Prepend<T>(front: seq<T>, r: Result<seq<T>>): Result<seq<T>>
  {
    match r
    case Ok(more) => Ok(front + more)
    case Err(e) => Err(e)
  }

  /** n * s as repeated addition, which keeps byte positions linear. */
  function Times(n: nat, s: nat): nat
  {
    if n == 0 then 0 else Times(n - 1, s) + s
  }

  lemma {:induction false} TimesIsProduct(n: nat, s: nat)
    ensures Times(n, s) == n * s
  {
    if n != 0 {
      TimesIsProduct(n - 1, s);
    }
  }

  lemma {:induction false} TimesAdd(m: nat, n: nat, s: nat)
    ensures Times(m + n, s) == Times(m, s) + Times(n, s)
  {
    if n != 0 {
      TimesAdd(m, n - 1, s);
    }
  }

  lemma TimesMono(m: nat, n: nat, s: nat)
    requires m <= n
    ensures Times(m, s) <= Times(n, s)
  {
    TimesAdd(m, n - m, s);
  }

  lemma DivTimes(x: nat, bs: nat)
    requires bs > 0
    ensures Times(x / bs, bs) + x % bs == x && x % bs < bs
  {
    TimesIsProduct(x / bs, bs);
  }

  lemma {:induction false} TimesUnique(q: nat, r: nat, q': nat, r': nat, m: nat)
    requires r < m && r' < m && Times(q, m) + r == Times(q', m) + r'
    ensures q == q' && r == r'
  {
    if q < q' {
      TimesMono(q + 1, q', m);
    } else if q' < q {
      TimesMono(q' + 1, q, m);
    }
  }

  lemma {:induction false} TimesScale(n: nat, k: nat, m: nat, km: nat)
    requires km == k * m
    ensures Times(n, km) == k * Times(n, m)
  {
    if n != 0 {
      TimesScale(n - 1, k, m, km);
    }
  }

  /** 256 to the power n: the number of values an n-byte field can hold. */
  function Capacity(n: nat): (c: nat)
    ensures c > 0
  {
    if n == 0 then 1 else 256 * Capacity(n - 1)
  }

  /** Writes v as n big-endian bytes. */
  function PutUint(n: nat, v: nat): (s: seq<byte>)
    requires v < Capacity(n)
    ensures |s| == n
  {
    if n == 0 then [] else PutUint(n - 1, v / 256) + [v % 256]
  }

  /** Reads a big-endian unsigned integer. */
  function GetUint(s: seq<byte>): (v: nat)
    ensures v < Capacity(|s|)
  {
    if |s| == 0 then 0 else 256 * GetUint(s[..|s| - 1]) + s[|s| - 1]
  }

  lemma {:induction false} GetPut(n: nat, v: nat)
    requires v < Capacity(n)
    ensures GetUint(PutUint(n, v)) == v
  {
    if n != 0 {
      GetPut(n - 1, v / 256);
      var s := PutUint(n, v);
      assert s[..|s| - 1] == PutUint(n - 1, v / 256);
    }
  }

  lemma {:induction false} PutGet(s: seq<byte>)
    ensures PutUint(|s|, GetUint(s)) == s
  {
    if |s| != 0 {
      PutGet(s[..|s| - 1]);
      assert s == s[..|s| - 1] + [s[|s| - 1]];
    }
  }

  /** The bytes of a four-letter signature. */
  ghost predicate Spells(s: seq<byte>, word: string)
  {
    |s| == |word| && forall i :: 0 <= i < |s| ==> s[i] == word[i] as int
  }

  lemma Capacities()
    ensures Capacity(1) == 0x100 && Capacity(2) == 0x1_0000
    ensures Capacity(4) == 0x1_0000_0000
    ensures Capacity(7) == 0x100_0000_0000_0000
    ensures Capacity(8) == 0x1_0000_0000_0000_0000
  {
    assert Capacity(1) == 0x100;
    assert Capacity(3) == 0x100_0000;
    assert Capacity(5) == 0x100_0000_0000;
    assert Capacity(7) == 0x100_0000_0000_0000;
  }
}
