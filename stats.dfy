/*
 * The arithmetic the engine borrows from Python's `statistics` module and
 * built-ins (`sum`, `abs`, `min`, `max`, `sorted`), over exact reals.
 * `statistics.stdev` needs a square root and is not defined here: the
 * modules that use it take it as a parameter.
 */
module Stats {

  function Abs(x: real): (r: real)
    ensures r >= 0.0 && (r == x || r == -x)
  {
    if x < 0.0 then -x else x
  }

  function Max(a: real, b: real): (r: real)
    ensures r >= a && r >= b && (r == a || r == b)
  {
    if a >= b then a else b
  }

  function Min(a: real, b: real): (r: real)
    ensures r <= a && r <= b && (r == a || r == b)
  {
    if a <= b then a else b
  }

  /** The same three on integers (periods and counts). */
  function IntAbs(x: int): (r: nat)
    ensures r == x || r == -x
  {
    if x < 0 then -x else x
  }

  function IntMax(a: int, b: int): (r: int)
    ensures r >= a && r >= b && (r == a || r == b)
  {
    if a >= b then a else b
  }

  function IntMin(a: int, b: int): (r: int)
    ensures r <= a && r <= b && (r == a || r == b)
  {
    if a <= b then a else b
  }

  function Sum(s: seq<real>): real
  {
    if s == [] then 0.0 else Sum(s[..|s| - 1]) + s[|s| - 1]
  }

  /** `statistics.mean`. */
  function Mean(s: seq<real>): real
    requires |s| > 0
  {
    Sum(s) / (|s| as real)
  }

  function Square(x: real): (r: real)
    ensures r >= 0.0
  {
    if x >= 0.0 then x * x else (-x) * (-x)
  }

  /** Sum of squared deviations from `m`. */
  function SquaredDeviations(s: seq<real>, m: real): (r: real)
    ensures r >= 0.0
    ensures (forall i | 0 <= i < |s| :: s[i] == m) ==> r == 0.0
  {
    if s == [] then 0.0 else SquaredDeviations(s[..|s| - 1], m) + Square(s[|s| - 1] - m)
  }

  /** `statistics.variance`: the sample variance, defined from two values on. */
  function Variance(s: seq<real>): (r: real)
    requires |s| >= 2
    ensures r >= 0.0
  {
    SquaredDeviations(s, Mean(s)) / ((|s| - 1) as real)
  }

  /** `stdev` behaves as `statistics.stdev` wherever that is defined: the
      non-negative square root of the sample variance, zero exactly when
      the variance is. */
  ghost predicate IsStdev(stdev: seq<real> -> real)
  {
    forall s: seq<real> | |s| >= 2 :: StdevOf(stdev, s)
  }

  /** What `stdev` gives on one sequence of two or more values. */
  ghost predicate StdevOf(stdev: seq<real> -> real, s: seq<real>)
    requires |s| >= 2
  {
    stdev(s) >= 0.0 && stdev(s) * stdev(s) == Variance(s) &&
    (stdev(s) == 0.0 <==> Variance(s) == 0.0)
  }

  /** Constant data has zero variance. */
  lemma ConstantVariance(s: seq<real>)
    requires |s| >= 2 && forall i | 0 <= i < |s| :: s[i] == s[0]
    ensures Variance(s) == 0.0
  {
    MeanBetween(s, s[0], s[0]);
  }

  /** So a valid `stdev` gives 0 on constant data. */
  lemma ConstantStdev(stdev: seq<real> -> real, s: seq<real>)
    requires IsStdev(stdev)
    requires |s| >= 2 && forall i | 0 <= i < |s| :: s[i] == s[0]
    ensures stdev(s) == 0.0
  {
    assert StdevOf(stdev, s);
    ConstantVariance(s);
  }

  /** ... and so on every stretch of two or more values of a constant series. */
  lemma ConstantSliceStdev(stdev: seq<real> -> real, s: seq<real>, lo: nat, hi: nat)
    requires IsStdev(stdev)
    requires lo + 2 <= hi <= |s| && forall i | 0 <= i < |s| :: s[i] == s[0]
    ensures stdev(s[lo..hi]) == 0.0
  {
    var t := s[lo..hi];
    assert forall k | 0 <= k < |t| :: t[k] == s[lo + k];
    ConstantStdev(stdev, t);
  }

  function MinOf(s: seq<real>): (r: real)
    requires |s| > 0
    ensures r in s && forall i | 0 <= i < |s| :: r <= s[i]
  {
    if |s| == 1 then s[0] else Min(MinOf(s[..|s| - 1]), s[|s| - 1])
  }

  function MaxOf(s: seq<real>): (r: real)
    requires |s| > 0
    ensures r in s && forall i | 0 <= i < |s| :: s[i] <= r
  {
    if |s| == 1 then s[0] else Max(MaxOf(s[..|s| - 1]), s[|s| - 1])
  }

  function MinInt(s: seq<int>): (r: int)
    requires |s| > 0
    ensures r in s && forall i | 0 <= i < |s| :: r <= s[i]
  {
    if |s| == 1 then s[0] else if s[|s| - 1] < MinInt(s[..|s| - 1]) then s[|s| - 1] else MinInt(s[..|s| - 1])
  }

  function MaxInt(s: seq<int>): (r: int)
    requires |s| > 0
    ensures r in s && forall i | 0 <= i < |s| :: s[i] <= r
  {
    if |s| == 1 then s[0] else if s[|s| - 1] > MaxInt(s[..|s| - 1]) then s[|s| - 1] else MaxInt(s[..|s| - 1])
  }

  function IntsToReals(s: seq<int>): (r: seq<real>)
    ensures |r| == |s| && forall i | 0 <= i < |s| :: r[i] == s[i] as real
  {
    seq(|s|, i requires 0 <= i < |s| => s[i] as real)
  }

  /** Sum of the `int` sequence, as Python's built-in `sum`. */
  function SumInt(s: seq<int>): int
  {
    if s == [] then 0 else SumInt(s[..|s| - 1]) + s[|s| - 1]
  }

  lemma {:induction false} SumBounds(s: seq<real>, lo: real, hi: real)
    requires forall i | 0 <= i < |s| :: lo <= s[i] <= hi
    ensures (|s| as real) * lo <= Sum(s) <= (|s| as real) * hi
  {
    if s != [] {
      SumBounds(s[..|s| - 1], lo, hi);
    }
  }

  lemma {:induction false} SumOfInts(s: seq<int>)
    ensures Sum(IntsToReals(s)) == SumInt(s) as real
  {
    if s != [] {
      var p := s[..|s| - 1];
      assert IntsToReals(s)[..|s| - 1] == IntsToReals(p);
      SumOfInts(p);
    }
  }

  /** A mean lies between any bounds of its values. */
  lemma MeanBetween(s: seq<real>, lo: real, hi: real)
    requires |s| > 0
    requires forall i | 0 <= i < |s| :: lo <= s[i] <= hi
    ensures lo <= Mean(s) <= hi
  {
    SumBounds(s, lo, hi);
    var n := |s| as real;
    assert n * lo <= Sum(s) <= n * hi;
    assert Sum(s) / n >= (n * lo) / n;
    assert Sum(s) / n <= (n * hi) / n;
  }

  // ----- sorting and the median -----

  predicate Sorted(s: seq<real>)
  {
    forall i, j | 0 <= i < j < |s| :: s[i] <= s[j]
  }

  function Insert(x: real, s: seq<real>): (r: seq<real>)
    requires Sorted(s)
    ensures Sorted(r) && multiset(r) == multiset(s) + multiset{x}
  {
    if s == [] then [x]
    else if x <= s[0] then [x] + s
    else
      var t := Insert(x, s[1..]);
      assert s == [s[0]] + s[1..];
      assert forall k | 0 <= k < |t| :: s[0] <= t[k] by {
        forall k | 0 <= k < |t| ensures s[0] <= t[k] {
          assert t[k] in multiset(t);
          if t[k] != x {
            HeadIsLeast(s, t[k]);
          }
        }
      }
      [s[0]] + t
  }

  lemma HeadIsLeast(s: seq<real>, y: real)
    requires Sorted(s) && s != [] && y in multiset(s[1..])
    ensures s[0] <= y
  {
    var j :| 0 <= j < |s[1..]| && s[1..][j] == y;
    assert s[j + 1] == y;
  }

  /** The values of `s` in ascending order, as Python's `sorted`. */
  function Sort(s: seq<real>): (r: seq<real>)
    ensures Sorted(r) && multiset(r) == multiset(s) && |r| == |s|
  {
    if s == [] then []
    else
      assert s == s[..|s| - 1] + [s[|s| - 1]];
      var r := Insert(s[|s| - 1], Sort(s[..|s| - 1]));
      assert |r| == |multiset(r)|;
      r
  }

  /** `statistics.median`: the middle value of the sorted data, or the mean
      of the two middle values when their number is even. */
  function Median(s: seq<real>): real
    requires |s| > 0
  {
    var t := Sort(s);
    var n := |t|;
    if n % 2 == 1 then t[n / 2] else (t[n / 2 - 1] + t[n / 2]) / 2.0
  }

  lemma MedianBetween(s: seq<real>, lo: real, hi: real)
    requires |s| > 0
    requires forall i | 0 <= i < |s| :: lo <= s[i] <= hi
    ensures lo <= Median(s) <= hi
  {
    var t := Sort(s);
    forall k | 0 <= k < |t| ensures lo <= t[k] <= hi {
      assert t[k] in multiset(t);
      assert t[k] in multiset(s);
      assert t[k] in s;
    }
  }
}
