/** The distribution statistics the goal checkers compute with numpy:
    the share of runs that reach a goal, `np.median` and `np.percentile`
    with numpy's default "linear" interpolation. */
module Stats {

  /** Number of values at or above `goal`: `len([p for p in values if p >= goal])`. */
  function CountAtLeast(values: seq<real>, goal: real): (c: nat)
    ensures c <= |values|
  {
    if |values| == 0 then 0
    else CountAtLeast(values[..|values| - 1], goal) + (if values[|values| - 1] >= goal then 1 else 0)
  }

  /** `len(successes) / len(values) * 100`; the callers divide by zero on an empty list. */
  function SuccessProbability(values: seq<real>, goal: real): (p: real)
    requires |values| > 0
    ensures 0.0 <= p <= 100.0
    ensures p == 100.0 <==> forall i :: 0 <= i < |values| ==> values[i] >= goal
    ensures p == 0.0 <==> forall i :: 0 <= i < |values| ==> values[i] < goal
  {
    CountAllIff(values, goal);
    CountNoneIff(values, goal);
    Percentage(CountAtLeast(values, goal), |values|);
    CountAtLeast(values, goal) as real / |values| as real * 100.0
  }

  /** `count / n * 100` for `0 <= count <= n` lies in [0, 100], reaching 100
      exactly for `count == n` and 0 exactly for `count == 0`. */
  lemma Percentage(count: nat, n: nat)
    requires 0 < n && count <= n
    ensures 0.0 <= count as real / n as real * 100.0 <= 100.0
    ensures count as real / n as real * 100.0 == 100.0 <==> count == n
    ensures count as real / n as real * 100.0 == 0.0 <==> count == 0
  {
    var c, m := count as real, n as real;
    var q := c / m;
    assert q * m == c;
    assert 0.0 <= q <= 1.0;
    if q == 1.0 {
      assert c == m;
    }
  }

  lemma {:induction false} CountAllIff(values: seq<real>, goal: real)
    ensures CountAtLeast(values, goal) == |values| <==> forall i :: 0 <= i < |values| ==> values[i] >= goal
  {
    if |values| > 0 {
      var n := |values| - 1;
      CountAllIff(values[..n], goal);
      assert forall i :: 0 <= i < n ==> values[..n][i] == values[i];
    }
  }

  lemma {:induction false} CountNoneIff(values: seq<real>, goal: real)
    ensures CountAtLeast(values, goal) == 0 <==> forall i :: 0 <= i < |values| ==> values[i] < goal
  {
    if |values| > 0 {
      var n := |values| - 1;
      CountNoneIff(values[..n], goal);
      assert forall i :: 0 <= i < n ==> values[..n][i] == values[i];
    }
  }

  /** Raising the goal never adds successes. */
  lemma {:induction false} CountAntitone(values: seq<real>, lower: real, higher: real)
    requires lower <= higher
    ensures CountAtLeast(values, higher) <= CountAtLeast(values, lower)
  {
    if |values| > 0 {
      CountAntitone(values[..|values| - 1], lower, higher);
    }
  }

  /** Raising the goal never raises the success probability. */
  lemma ProbabilityAntitone(values: seq<real>, lower: real, higher: real)
    requires |values| > 0
    requires lower <= higher
    ensures SuccessProbability(values, higher) <= SuccessProbability(values, lower)
  {
    CountAntitone(values, lower, higher);
    var n := |values| as real;
    var ch := CountAtLeast(values, higher) as real;
    var cl := CountAtLeast(values, lower) as real;
    assert ch / n <= cl / n by { DivMonotone(ch, cl, n); }
  }

  lemma DivMonotone(a: real, b: real, n: real)
    requires a <= b && n > 0.0
    ensures a / n <= b / n
  {
    assert b / n - a / n == (b - a) / n;
  }

  predicate Sorted(s: seq<real>) {
    forall i, j :: 0 <= i < j < |s| ==> s[i] <= s[j]
  }

  /** Inserts `x` into a sorted sequence. */
  function Insert(x: real, s: seq<real>): (r: seq<real>)
    requires Sorted(s)
    ensures Sorted(r)
    ensures multiset(r) == multiset(s) + multiset{x}
    ensures |r| == |s| + 1
    ensures r[0] == if |s| == 0 || x <= s[0] then x else s[0]
  {
    if |s| == 0 then [x]
    else if x <= s[0] then [x] + s
    else
      var rest := Insert(x, s[1..]);
      assert s == [s[0]] + s[1..];
      assert s[0] <= rest[0];
      var r := [s[0]] + rest;
      assert forall i :: 1 <= i < |r| ==> r[i] == rest[i - 1];
      r
  }

  /** The sorted copy numpy works on before it takes order statistics. */
  function Sort(s: seq<real>): (r: seq<real>)
    ensures Sorted(r)
    ensures multiset(r) == multiset(s)
    ensures |r| == |s|
  {
    if |s| == 0 then []
    else
      assert s == [s[0]] + s[1..];
      Insert(s[0], Sort(s[1..]))
  }

  /** numpy's "linear" method: the value at the fractional position `h` of a
      sorted sequence, interpolated between its two neighbours. */
  function Interpolate(s: seq<real>, h: real): (r: real)
    requires Sorted(s)
    requires 0.0 <= h <= (|s| - 1) as real
    ensures s[h.Floor] <= r
    ensures h.Floor + 1 < |s| ==> r <= s[h.Floor + 1]
    ensures h.Floor + 1 >= |s| ==> r == s[h.Floor]
  {
    var lo := h.Floor;
    var t := h - lo as real;
    if lo + 1 < |s| then
      var gap := s[lo + 1] - s[lo];
      assert 0.0 <= gap * t <= gap by { Scaled(gap, t); }
      s[lo] + gap * t
    else s[lo]
  }

  lemma Scaled(gap: real, t: real)
    requires gap >= 0.0 && 0.0 <= t < 1.0
    ensures 0.0 <= gap * t <= gap
  {
    assert gap - gap * t == gap * (1.0 - t);
  }

  /** Interpolation is non-decreasing in the position. */
  lemma InterpolateMonotone(s: seq<real>, h1: real, h2: real)
    requires Sorted(s)
    requires 0.0 <= h1 <= h2 <= (|s| - 1) as real
    ensures Interpolate(s, h1) <= Interpolate(s, h2)
  {
    var lo1, lo2 := h1.Floor, h2.Floor;
    if lo1 == lo2 {
      if lo1 + 1 < |s| {
        var gap := s[lo1 + 1] - s[lo1];
        var t1, t2 := h1 - lo1 as real, h2 - lo2 as real;
        assert gap * t2 - gap * t1 == gap * (t2 - t1);
        assert gap * (t2 - t1) >= 0.0;
      }
    } else {
      assert lo1 + 1 <= lo2;
      assert s[lo1 + 1] <= s[lo2];
    }
  }

  /** The fractional position numpy's "linear" method reads for percentile `q`
      of `n` sorted values: `(n - 1) * q / 100`. */
  function Position(n: nat, q: real): (h: real)
    requires n > 0
    requires 0.0 <= q <= 100.0
    ensures 0.0 <= h <= (n - 1) as real
  {
    var m := (n - 1) as real;
    assert m * q <= m * 100.0 by { assert m * 100.0 - m * q == m * (100.0 - q); }
    m * q / 100.0
  }

  lemma PositionMonotone(n: nat, q1: real, q2: real)
    requires n > 0
    requires 0.0 <= q1 <= q2 <= 100.0
    ensures Position(n, q1) <= Position(n, q2)
  {
    var m := (n - 1) as real;
    assert m * q2 - m * q1 == m * (q2 - q1);
    assert m * (q2 - q1) >= 0.0;
    assert m * q1 <= m * q2;
    assert m * q1 / 100.0 <= m * q2 / 100.0;
  }

  /** `np.percentile(values, q)` with the default "linear" method: the 0th
      percentile is the smallest value and the 100th the largest. */
  function Percentile(values: seq<real>, q: real): (r: real)
    requires |values| > 0
    requires 0.0 <= q <= 100.0
    ensures q == 0.0 ==> r == Sort(values)[0]
    ensures q == 100.0 ==> r == Sort(values)[|values| - 1]
  {
    var s := Sort(values);
    var h := Position(|values|, q);
    PositionEnds(|values|, q);
    if q == 0.0 then
      InterpolateAtIndex(s, 0);
      Interpolate(s, h)
    else if q == 100.0 then
      InterpolateAtIndex(s, |s| - 1);
      Interpolate(s, h)
    else Interpolate(s, h)
  }

  /** The 0th percentile sits at the first position and the 100th at the last. */
  lemma PositionEnds(n: nat, q: real)
    requires n > 0
    requires 0.0 <= q <= 100.0
    ensures q == 0.0 ==> Position(n, q) == 0 as real
    ensures q == 100.0 ==> Position(n, q) == (n - 1) as real
  {
  }

  /** A percentile lies between the smallest and the largest value. */
  lemma PercentileWithinRange(values: seq<real>, q: real)
    requires |values| > 0
    requires 0.0 <= q <= 100.0
    ensures exists i :: 0 <= i < |values| && values[i] <= Percentile(values, q)
    ensures exists j :: 0 <= j < |values| && Percentile(values, q) <= values[j]
  {
    var s := Sort(values);
    var n := |s|;
    var h := Position(n, q);
    var lo := h.Floor;
    var hi := if lo + 1 < n then lo + 1 else lo;
    assert s[lo] <= Interpolate(s, h) <= s[hi];
    InMultiset(s, values, lo);
    InMultiset(s, values, hi);
  }

  lemma InMultiset(s: seq<real>, values: seq<real>, k: nat)
    requires multiset(s) == multiset(values)
    requires k < |s|
    ensures exists i :: 0 <= i < |values| && values[i] == s[k]
  {
    assert s[k] in multiset(s);
    assert s[k] in values;
  }

  /** A higher percentile is never smaller. */
  lemma PercentileMonotone(values: seq<real>, q1: real, q2: real)
    requires |values| > 0
    requires 0.0 <= q1 <= q2 <= 100.0
    ensures Percentile(values, q1) <= Percentile(values, q2)
  {
    PositionMonotone(|values|, q1, q2);
    InterpolateMonotone(Sort(values), Position(|values|, q1), Position(|values|, q2));
  }

  /** `np.median`: the middle of the sorted values, or the mean of the two middle ones. */
  function Median(values: seq<real>): (r: real)
    requires |values| > 0
    ensures Sort(values)[(|values| - 1) / 2] <= r <= Sort(values)[|values| / 2]
    ensures |values| % 2 == 1 ==> r == Sort(values)[|values| / 2]
  {
    var s := Sort(values);
    var n := |s|;
    if n % 2 == 1 then
      assert (n - 1) / 2 == n / 2;
      s[n / 2]
    else
      assert (n - 1) / 2 == n / 2 - 1;
      assert s[n / 2 - 1] <= s[n / 2];
      (s[n / 2 - 1] + s[n / 2]) / 2.0
  }

  /** The median is the 50th percentile under linear interpolation. */
  lemma MedianIsPercentile50(values: seq<real>)
    requires |values| > 0
    ensures Median(values) == Percentile(values, 50.0)
  {
    var s := Sort(values);
    var n := |s|;
    if n % 2 == 1 {
      assert Position(n, 50.0) == (n / 2) as real;
      InterpolateAtIndex(s, n / 2);
    } else {
      assert Position(n, 50.0) == (n / 2 - 1) as real + 0.5;
      InterpolateAtMidpoint(s, n / 2 - 1);
    }
  }

  lemma InterpolateAtIndex(s: seq<real>, k: nat)
    requires Sorted(s)
    requires k < |s|
    ensures Interpolate(s, k as real) == s[k]
  {
    assert (k as real).Floor == k;
  }

  lemma InterpolateAtMidpoint(s: seq<real>, k: nat)
    requires Sorted(s)
    requires k + 1 < |s|
    ensures Interpolate(s, k as real + 0.5) == (s[k] + s[k + 1]) / 2.0
  {
    assert (k as real + 0.5).Floor == k;
  }

  /** The reported range brackets the median: 25th percentile <= median <= 75th percentile. */
  lemma QuartilesBracketMedian(values: seq<real>)
    requires |values| > 0
    ensures Percentile(values, 25.0) <= Median(values) <= Percentile(values, 75.0)
  {
    MedianIsPercentile50(values);
    PercentileMonotone(values, 25.0, 50.0);
    PercentileMonotone(values, 50.0, 75.0);
  }
}
