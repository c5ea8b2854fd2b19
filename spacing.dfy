/** Evenly spaced sample points over exact reals: the `linspace(start, stop, num)`
    generator (endpoints included) that every time-axis setter rebuilds its
    samples with, and the facts about it that the setters rely on. */
module Spacing {

  /** The distance between neighbouring points when `n` points run from `a`
      to `b` with both endpoints included. */
  function Step(a: real, b: real, n: nat): real
    requires n >= 2
  {
    (b - a) / ((n - 1) as real)
  }

  /** `n` points from `a` to `b`, both endpoints included. With `n == 1` the
      single point is `a`; with `n == 0` there are none. */
  function Linspace(a: real, b: real, n: nat): (r: seq<real>)
    ensures |r| == n
    ensures n >= 1 ==> r[0] == a
    ensures n >= 2 ==> r[n - 1] == b
  {
    if n < 2 then seq(n, _ => a)
    else
      var h := Step(a, b, n);
      assert ((n - 1) as real) * h == b - a;
      seq(n, k requires 0 <= k < n => a + (k as real) * h)
  }

  /** Every pair of neighbours is as far apart as the first pair. */
  predicate EvenlySpaced(s: seq<real>)
  {
    forall i :: 0 < i < |s| ==> s[i] - s[i - 1] == s[1] - s[0]
  }

  /** Every element is at least as large as every element before it. */
  predicate Ascending(s: seq<real>)
  {
    forall i, j :: 0 <= i <= j < |s| ==> s[i] <= s[j]
  }

  /** The points `Linspace` produces are evenly spaced. */
  lemma LinspaceEvenlySpaced(a: real, b: real, n: nat)
    ensures EvenlySpaced(Linspace(a, b, n))
  {
    var r := Linspace(a, b, n);
    if n >= 2 {
      var h := Step(a, b, n);
      forall i | 0 < i < n
        ensures r[i] - r[i - 1] == h
      {
        assert r[i] == a + (i as real) * h;
        assert r[i - 1] == a + ((i - 1) as real) * h;
      }
    }
  }

  /** Point `k` of `Linspace(a, b, n)` lies `k` steps after `a`. */
  lemma LinspaceAt(a: real, b: real, n: nat, k: nat)
    requires 2 <= n && k < n
    ensures Linspace(a, b, n)[k] == a + (k as real) * (b - a) / ((n - 1) as real)
  {
    var m := (n - 1) as real;
    assert (k as real) * ((b - a) / m) == (k as real) * (b - a) / m;
  }

  /** In an evenly spaced sequence, element `k` is `k` first-steps after
      element 0. */
  lemma {:induction false} EvenlySpacedAt(s: seq<real>, k: nat)
    requires |s| >= 2 && EvenlySpaced(s) && k < |s|
    ensures s[k] == s[0] + (k as real) * (s[1] - s[0])
  {
    if k > 0 {
      EvenlySpacedAt(s, k - 1);
      assert s[k] - s[k - 1] == s[1] - s[0];
    }
  }

  /** An evenly spaced sequence of at least two points is exactly the
      `Linspace` of its own first point, last point and length: `Linspace`
      is the only evenly spaced sequence with given endpoints and count. */
  lemma LinspaceUnique(s: seq<real>)
    requires |s| >= 2 && EvenlySpaced(s)
    ensures s == Linspace(s[0], s[|s| - 1], |s|)
  {
    var n := |s|;
    var a, b, d := s[0], s[n - 1], s[1] - s[0];
    var m := (n - 1) as real;
    EvenlySpacedAt(s, n - 1);
    assert b - a == m * d;
    assert Step(a, b, n) == d;
    var r := Linspace(a, b, n);
    forall k | 0 <= k < n
      ensures s[k] == r[k]
    {
      EvenlySpacedAt(s, k);
    }
  }

  /** From a start no later than the end, `Linspace` is in ascending order. */
  lemma LinspaceAscending(a: real, b: real, n: nat)
    requires a <= b
    ensures Ascending(Linspace(a, b, n))
  {
    var r := Linspace(a, b, n);
    if n >= 2 {
      var h := Step(a, b, n);
      assert h >= 0.0;
      forall i, j | 0 <= i <= j < n
        ensures r[i] <= r[j]
      {
        assert r[j] - r[i] == ((j - i) as real) * h;
      }
    }
  }
}
