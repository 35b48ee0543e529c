/** Ascending enumeration of a finite set of block numbers. */
module Sorting {

  ghost predicate Increasing(s: seq<nat>)
  {
    forall i, j :: 0 <= i < j < |s| ==> s[i] < s[j]
  }

  method Smallest(s: set<nat>) returns (x: nat)
    requires s != {}
    ensures x in s && forall y :: y in s ==> x <= y
  {
    x :| x in s;
    var todo := s - {x};
    while todo != {}
      invariant todo <= s && x in s
      invariant forall y :: y in s && y !in todo ==> x <= y
    {
      var y :| y in todo;
      todo := todo - {y};
      if y < x {
        x := y;
      }
    }
  }

  method SortKeys(s: set<nat>) returns (keys: seq<nat>)
    ensures Increasing(keys)
    ensures forall x :: x in keys <==> x in s
  {
    keys := [];
    var todo := s;
    while todo != {}
      invariant Increasing(keys)
      invariant todo <= s
      invariant forall x :: x in s <==> x in keys || x in todo
      invariant forall i, y :: 0 <= i < |keys| && y in todo ==> keys[i] < y
    {
      var x := Smallest(todo);
      todo := todo - {x};
      keys := keys + [x];
    }
  }

  lemma NonEmptyHas(s: seq<nat>)
    ensures |s| > 0 ==> exists x :: x in s
  {
    if |s| > 0 {
      assert s[0] in s;
    }
  }

  /** An ascending sequence is determined by its elements. */
  lemma {:induction false} IncreasingUnique(a: seq<nat>, b: seq<nat>)
    requires Increasing(a) && Increasing(b)
    requires forall x :: x in a <==> x in b
    ensures a == b
  {
    if |a| == 0 {
      NonEmptyHas(b);
    } else {
      assert a[|a| - 1] in b;
      assert |b| > 0;
      assert b[|b| - 1] in a;
      var a', b' := a[..|a| - 1], b[..|b| - 1];
      assert a[|a| - 1] == b[|b| - 1];
      forall x ensures x in a' <==> x in b' {
        assert x in a' <==> x in a && x != a[|a| - 1];
        assert x in b' <==> x in b && x != b[|b| - 1];
      }
      IncreasingUnique(a', b');
      assert a == a' + [a[|a| - 1]] && b == b' + [b[|b| - 1]];
    }
  }

  lemma {:induction false} Greatest(s: set<nat>) returns (x: nat)
    requires s != {}
    ensures x in s && forall y :: y in s ==> y <= x
    decreases |s|
  {
    x :| x in s;
    if s != {x} {
      var rest := s - {x};
      var y := Greatest(rest);
      assert forall z :: z in s && z != x ==> z in rest;
      x := if x < y then y else x;
    }
  }

  lemma {:induction false} SubsetSize(a: set<nat>, b: set<nat>)
    requires a <= b
    ensures |a| <= |b|
    decreases |a|
  {
    if a != {} {
      var x :| x in a;
      SubsetSize(a - {x}, b - {x});
    }
  }

  /** An ascending sequence is no longer than any set that holds its elements. */
  lemma {:induction false} IncreasingSize(s: seq<nat>, bound: set<nat>)
    requires Increasing(s) && forall i :: 0 <= i < |s| ==> s[i] in bound
    ensures |s| <= |bound|
  {
    if |s| > 0 {
      var n := |s| - 1;
      IncreasingSize(s[..n], bound - {s[n]});
    }
  }
}
