/** Names of chunk objects: printing an id into a key and reading it back. */
module ChunkKey {
  import opened Bytes

  const PREFIX := "/chunks/chunk."
  const SUFFIX := ".bin"

  // ----- Decimal numbers -----

  predicate IsDigit(c: char)
  {
    '0' <= c <= '9'
  }

  predicate AllDigits(s: string)
  {
    forall i :: 0 <= i < |s| ==> IsDigit(s[i])
  }

  function Digit(n: nat): (c: char)
    requires n < 10
    ensures IsDigit(c) && c as int - '0' as int == n
  {
    ('0' as int + n) as char
  }

  /** Decimal digits without leading zeros. */
  function Decimal(n: nat): (s: string)
    ensures |s| > 0 && AllDigits(s)
  {
    if n < 10 then [Digit(n)] else Decimal(n / 10) + [Digit(n % 10)]
  }

  function Value(s: string): nat
    requires AllDigits(s)
  {
    if |s| == 0 then 0 else 10 * Value(s[..|s| - 1]) + (s[|s| - 1] as int - '0' as int)
  }

  lemma {:induction false} ValueOfDecimal(n: nat)
    ensures Value(Decimal(n)) == n
  {
    var s := Decimal(n);
    if n >= 10 {
      ValueOfDecimal(n / 10);
      assert s[..|s| - 1] == Decimal(n / 10);
    } else {
      assert s[..0] == [];
    }
  }

  function Zeros(n: nat): (s: string)
    ensures |s| == n && forall i :: 0 <= i < n ==> s[i] == '0'
  {
    seq(n, _ => '0')
  }

  lemma {:induction false} LeadingZeros(n: nat, s: string)
    requires AllDigits(s)
    ensures AllDigits(Zeros(n) + s) && Value(Zeros(n) + s) == Value(s)
    decreases n + |s|
  {
    var all := Zeros(n) + s;
    if |s| > 0 {
      LeadingZeros(n, s[..|s| - 1]);
      assert all[..|all| - 1] == Zeros(n) + s[..|s| - 1];
    } else if n > 0 {
      LeadingZeros(n - 1, s);
      assert all[..|all| - 1] == Zeros(n - 1) + s;
    }
  }

  /** At least eight digits, zero-padded on the left. */
  function Padded(n: nat): (s: string)
    ensures |s| >= 8 && AllDigits(s)
  {
    var d := Decimal(n);
    Zeros(if |d| < 8 then 8 - |d| else 0) + d
  }

  // ----- Keys -----

  function Key(volume: string, id: nat): string
  {
    volume + PREFIX + Padded(id) + SUFFIX
  }

  /** The pattern matches from position i to the end of the key. */
  predicate MatchesAt(key: string, i: nat)
  {
    && i + |PREFIX| + 1 + |SUFFIX| <= |key|
    && key[i..i + |PREFIX|] == PREFIX && key[|key| - |SUFFIX|..] == SUFFIX
    && AllDigits(key[i + |PREFIX|..|key| - |SUFFIX|])
  }

  /** The leftmost match from position i on. */
  function FindMatch(key: string, i: nat): (r: Option<nat>)
    requires i <= |key|
    ensures r.Some? ==> i <= r.value && MatchesAt(key, r.value) && forall j :: i <= j < r.value ==> !MatchesAt(key, j)
    ensures r.None? ==> forall j :: i <= j ==> !MatchesAt(key, j)
    decreases |key| - i
  {
    if MatchesAt(key, i) then Some(i)
    else if i == |key| then None
    else FindMatch(key, i + 1)
  }

  function ParseChunkObjectID(key: string): Option<nat>
  {
    match FindMatch(key, 0)
    case None => None
    case Some(i) =>
      var id := Value(key[i + |PREFIX|..|key| - |SUFFIX|]);
      if id < Capacity(8) then Some(id) else None
  }

  /** A key splits into anything, the fixed parts and the digits of its id. */
  ghost predicate Spells(key: string, volume: string, digits: string, id: nat)
  {
    && |digits| > 0 && AllDigits(digits) && Value(digits) == id
    && key == volume + PREFIX + digits + SUFFIX
  }

  lemma SpelledMatches(key: string, volume: string, digits: string, id: nat)
    requires Spells(key, volume, digits, id)
    ensures MatchesAt(key, |volume|) && key[|volume| + |PREFIX|..|key| - |SUFFIX|] == digits
  {
  }

  /** A match has exactly two slashes. */
  lemma SlashesOf(key: string, i: nat, x: nat)
    requires MatchesAt(key, i) && i <= x < |key|
    ensures key[x] == '/' <==> x == i || x == i + 7
  {
    if x < i + |PREFIX| {
      assert key[x] == key[i..i + |PREFIX|][x - i];
    } else if x < |key| - |SUFFIX| {
      assert key[x] == key[i + |PREFIX|..|key| - |SUFFIX|][x - i - |PREFIX|];
    } else {
      assert key[x] == key[|key| - |SUFFIX|..][x - (|key| - |SUFFIX|)];
    }
  }

  lemma MatchLength(key: string, i: nat)
    requires MatchesAt(key, i)
    ensures i + |PREFIX| <= |key|
  {
  }

  lemma MatchUnique(key: string, i: nat, j: nat)
    requires MatchesAt(key, i) && MatchesAt(key, j) && i <= j
    ensures i == j
  {
    hide MatchesAt;
    MatchLength(key, j);
    SlashesOf(key, j, j);
    SlashesOf(key, j, j + 7);
    SlashesOf(key, i, j);
    SlashesOf(key, i, j + 7);
  }

  /** Parsing succeeds exactly on spelled keys with a 64-bit id. */
  lemma ParseExact(key: string, id: nat)
    ensures ParseChunkObjectID(key) == Some(id)
       <==> id < Capacity(8) && exists volume, digits :: Spells(key, volume, digits, id)
  {
    if ParseChunkObjectID(key) == Some(id) {
      var i := FindMatch(key, 0).value;
      var digits := key[i + |PREFIX|..|key| - |SUFFIX|];
      assert key == key[..i] + key[i..i + |PREFIX|] + digits + key[|key| - |SUFFIX|..];
      assert Spells(key, key[..i], digits, id);
    }
    if id < Capacity(8) && exists volume, digits :: Spells(key, volume, digits, id) {
      var volume, digits :| Spells(key, volume, digits, id);
      SpelledMatches(key, volume, digits, id);
      var i := FindMatch(key, 0).value;
      MatchUnique(key, i, |volume|);
    }
  }

  /** Every 64-bit id of every volume comes back from its own key. */
  lemma KeyRoundTrip(volume: string, id: nat)
    requires id < Capacity(8)
    ensures ParseChunkObjectID(Key(volume, id)) == Some(id)
  {
    var d := Decimal(id);
    ValueOfDecimal(id);
    LeadingZeros(if |d| < 8 then 8 - |d| else 0, d);
    assert Spells(Key(volume, id), volume, Padded(id), id);
    ParseExact(Key(volume, id), id);
  }

  /** Different chunks of one volume, or chunks of different volumes, never share a key. */
  lemma KeyInjective(v: string, a: nat, w: string, b: nat)
    requires a < Capacity(8) && b < Capacity(8)
    ensures Key(v, a) == Key(w, b) <==> v == w && a == b
  {
    if Key(v, a) == Key(w, b) {
      KeyRoundTrip(v, a);
      KeyRoundTrip(w, b);
      assert |Key(v, a)| == |v| + |PREFIX| + |Padded(a)| + |SUFFIX|;
      assert Key(v, a)[..|v|] == v && Key(w, b)[..|w|] == w;
    }
  }
}
