/** The time axis of a reference frame, as a value: the sample sequence, its
    three derived views (start, end, number of points) and the three ways of
    setting a view, each of which rebuilds the whole sequence. */
module TimeAxis {
  import opened Spacing

  /** The first sample. */
  function Start(s: seq<real>): real
    requires |s| >= 1
  {
    s[0]
  }

  /** The last sample. */
  function End(s: seq<real>): real
    requires |s| >= 1
  {
    s[|s| - 1]
  }

  /** The number of samples. */
  function Count(s: seq<real>): nat
  {
    |s|
  }

  /** The samples after the start time is set to `t`: as many points as
      before, from `t` to the current end. */
  function WithStart(s: seq<real>, t: real): (r: seq<real>)
    requires |s| >= 1
    ensures Count(r) == Count(s)
    ensures Start(r) == t
    ensures Count(s) >= 2 ==> End(r) == End(s)
    ensures Count(s) == 1 ==> r == [t]
    ensures EvenlySpaced(r)
  {
    LinspaceEvenlySpaced(t, End(s), Count(s));
    Linspace(t, End(s), Count(s))
  }

  /** The samples after the end time is set to `t`: as many points as before,
      from the current start to `t`. A single-sample axis keeps its one
      sample, so its end does not become `t`. */
  function WithEnd(s: seq<real>, t: real): (r: seq<real>)
    requires |s| >= 1
    ensures Count(r) == Count(s)
    ensures Start(r) == Start(s)
    ensures Count(s) >= 2 ==> End(r) == t
    ensures Count(s) == 1 ==> r == s
    ensures EvenlySpaced(r)
  {
    LinspaceEvenlySpaced(Start(s), t, Count(s));
    Linspace(Start(s), t, Count(s))
  }

  /** The samples after the number of points is set to `n`: `n` points from
      the current start to the current end. One point keeps only the start;
      zero points leave the axis empty. */
  function WithCount(s: seq<real>, n: nat): (r: seq<real>)
    requires |s| >= 1
    ensures Count(r) == n
    ensures n >= 1 ==> Start(r) == Start(s)
    ensures n >= 2 ==> End(r) == End(s)
    ensures n == 1 ==> r == [Start(s)]
    ensures EvenlySpaced(r)
  {
    LinspaceEvenlySpaced(Start(s), End(s), n);
    Linspace(Start(s), End(s), n)
  }

  /** Rebuilding an axis from its own views gives it back exactly when its
      samples are evenly spaced. */
  lemma LinspaceOfViews(s: seq<real>)
    requires |s| >= 1
    ensures s == Linspace(Start(s), End(s), Count(s)) <==> EvenlySpaced(s)
  {
    if |s| == 1 {
      assert s == [Start(s)];
    } else if EvenlySpaced(s) {
      LinspaceUnique(s);
    } else {
      LinspaceEvenlySpaced(Start(s), End(s), Count(s));
    }
  }

  /** Sample `k` of an evenly spaced axis lies `k` steps from the start, the
      step being the span divided by one less than the number of points.
      Every setter leaves the axis evenly spaced, so this holds after each. */
  lemma SampleAt(s: seq<real>, k: nat)
    requires |s| >= 2 && EvenlySpaced(s) && k < |s|
    ensures s[k] == Start(s) + (k as real) * (End(s) - Start(s)) / ((Count(s) - 1) as real)
  {
    LinspaceUnique(s);
    LinspaceAt(Start(s), End(s), Count(s), k);
  }

  /** Setting a view to the value it already has leaves a non-empty axis
      unchanged exactly when the axis is evenly spaced; otherwise the
      earlier uneven samples are replaced. */
  lemma SetToCurrentIsNoOp(s: seq<real>)
    requires |s| >= 1
    ensures WithStart(s, Start(s)) == s <==> EvenlySpaced(s)
    ensures WithEnd(s, End(s)) == s <==> EvenlySpaced(s)
    ensures WithCount(s, Count(s)) == s <==> EvenlySpaced(s)
  {
    LinspaceOfViews(s);
  }

  /** A setter's result depends on the axis only through its views: two
      axes that agree on start, end and count give the same result, so
      whatever uneven samples came before are forgotten. */
  lemma OnlyViewsMatter(s1: seq<real>, s2: seq<real>, t: real, n: nat)
    requires |s1| >= 1 && |s2| >= 1
    requires Start(s1) == Start(s2) && End(s1) == End(s2) && Count(s1) == Count(s2)
    ensures WithStart(s1, t) == WithStart(s2, t)
    ensures WithEnd(s1, t) == WithEnd(s2, t)
    ensures WithCount(s1, n) == WithCount(s2, n)
  {
  }

  /** Setting the start and the end of a non-empty axis gives the same
      samples in either order: `Linspace` from the new start to the new end
      (on a one-point axis, `[a]` either way). */
  lemma StartEndCommute(s: seq<real>, a: real, b: real)
    requires |s| >= 1
    ensures WithEnd(WithStart(s, a), b) == Linspace(a, b, Count(s))
    ensures WithStart(WithEnd(s, b), a) == Linspace(a, b, Count(s))
  {
  }

  /** Setting the same value twice is the same as setting it once. */
  lemma SettersIdempotent(s: seq<real>, t: real, n: nat)
    requires |s| >= 1
    ensures WithStart(WithStart(s, t), t) == WithStart(s, t)
    ensures WithEnd(WithEnd(s, t), t) == WithEnd(s, t)
    ensures n >= 1 ==> WithCount(WithCount(s, n), n) == WithCount(s, n)
  {
  }

  /** A setter whose resulting start is no later than its resulting end
      produces an ascending axis, whatever the order of the samples before. */
  lemma SettersKeepAscending(s: seq<real>, t: real, n: nat)
    requires |s| >= 1
    ensures t <= End(s) ==> Ascending(WithStart(s, t))
    ensures Start(s) <= t ==> Ascending(WithEnd(s, t))
    ensures Start(s) <= End(s) ==> Ascending(WithCount(s, n))
  {
    if t <= End(s) {
      LinspaceAscending(t, End(s), Count(s));
    }
    if Start(s) <= t {
      LinspaceAscending(Start(s), t, Count(s));
    }
    if Start(s) <= End(s) {
      LinspaceAscending(Start(s), End(s), n);
    }
  }
}
