/**
 * The stream processor of backend/openmp/realtime_processing.cpp. Each
 * data stream is processed element by element into a result vector of the
 * same length: "normalize" maps every reading into [0, 1] by the stream's
 * minimum and maximum, "smooth" averages a window of five readings around
 * it, "trend" fits a least-squares line through the five readings before
 * it; any other operation leaves the vector at its zero initial value.
 *
 * The OpenMP loops run sequentially; a C++ double is an exact real, with
 * the results of a division by zero kept apart as NaN and the infinities.
 */
module Realtime {
  import opened Base

  /** A double result: a number, the NaN of 0/0 or an infinity of x/0. */
  datatype Double = Finite(value: real) | NaN | Infinity(negative: bool)

  /** IEEE division of two finite doubles. */
  function Divide(num: real, den: real): (r: Double)
    ensures den != 0.0 ==> r.Finite? && r.value * den == num
    ensures den == 0.0 ==> (r == NaN <==> num == 0.0)
  {
    if den != 0.0 then Finite(num / den)
    else if num == 0.0 then NaN
    else Infinity(num < 0.0)
  }

  /** The window processDataStreamParallel passes to applySmoothing. */
  const SmoothingWindow: int := 5

  /** The number of readings calculateTrend fits its line through. */
  const TrendPoints: nat := 5

  // ---------------------------------------------------------------------
  // getStreamMin and getStreamMax
  // ---------------------------------------------------------------------

  /** The value the scan from stream[0] leaves: lowered by every smaller reading. */
  function Minimum(s: seq<real>): real
    requires |s| > 0
  {
    if |s| == 1 then s[0]
    else
      var m := Minimum(s[..|s| - 1]);
      if s[|s| - 1] < m then s[|s| - 1] else m
  }

  /** The value the scan from stream[0] leaves: raised by every larger reading. */
  function Maximum(s: seq<real>): real
    requires |s| > 0
  {
    if |s| == 1 then s[0]
    else
      var m := Maximum(s[..|s| - 1]);
      if s[|s| - 1] > m then s[|s| - 1] else m
  }

  /** The minimum is one of the readings and no reading is below it. */
  lemma {:induction false} MinimumIsLeast(s: seq<real>)
    requires |s| > 0
    ensures Minimum(s) in s
    ensures forall k | 0 <= k < |s| :: Minimum(s) <= s[k]
  {
    if |s| > 1 {
      var p := s[..|s| - 1];
      MinimumIsLeast(p);
      assert forall k | 0 <= k < |p| :: s[k] == p[k];
    }
  }

  /** The maximum is one of the readings and no reading is above it. */
  lemma {:induction false} MaximumIsGreatest(s: seq<real>)
    requires |s| > 0
    ensures Maximum(s) in s
    ensures forall k | 0 <= k < |s| :: Maximum(s) >= s[k]
  {
    if |s| > 1 {
      var p := s[..|s| - 1];
      MaximumIsGreatest(p);
      assert forall k | 0 <= k < |p| :: s[k] == p[k];
    }
  }

  /** getStreamMin: reads stream[0], so the stream must not be empty. */
  method GetStreamMin(stream: seq<real>) returns (m: real)
    requires |stream| > 0
    ensures m == Minimum(stream)
  {
    m := stream[0];
    for i := 1 to |stream|
      invariant m == Minimum(stream[..i])
    {
      assert stream[..i + 1][..i] == stream[..i];
      if stream[i] < m {
        m := stream[i];
      }
    }
    assert stream[..|stream|] == stream;
  }

  /** getStreamMax: reads stream[0], so the stream must not be empty. */
  method GetStreamMax(stream: seq<real>) returns (m: real)
    requires |stream| > 0
    ensures m == Maximum(stream)
  {
    m := stream[0];
    for i := 1 to |stream|
      invariant m == Maximum(stream[..i])
    {
      assert stream[..i + 1][..i] == stream[..i];
      if stream[i] > m {
        m := stream[i];
      }
    }
    assert stream[..|stream|] == stream;
  }

  /** The normalized reading: its distance from the minimum over the stream's range. */
  function Normalized(stream: seq<real>, i: nat): Double
    requires i < |stream|
  {
    Divide(stream[i] - Minimum(stream), Maximum(stream) - Minimum(stream))
  }

  /**
   * Where the stream has a range, every reading normalizes into [0, 1], its
   * minimum to 0 and its maximum to 1; a flat stream normalizes to NaN
   * throughout.
   */
  lemma NormalizedLiesInUnitInterval(stream: seq<real>, i: nat)
    requires i < |stream|
    ensures Maximum(stream) > Minimum(stream) ==>
              && Normalized(stream, i).Finite?
              && 0.0 <= Normalized(stream, i).value <= 1.0
              && (stream[i] == Minimum(stream) ==> Normalized(stream, i).value == 0.0)
              && (stream[i] == Maximum(stream) ==> Normalized(stream, i).value == 1.0)
    ensures Maximum(stream) == Minimum(stream) ==> Normalized(stream, i) == NaN
  {
    MinimumIsLeast(stream);
    MaximumIsGreatest(stream);
    var lo, hi, x := Minimum(stream), Maximum(stream), stream[i];
    assert lo <= x <= hi;
    assert Normalized(stream, i) == Divide(x - lo, hi - lo);
    if hi > lo {
      UnitQuotient(x - lo, hi - lo);
    }
  }

  lemma UnitQuotient(d: real, r: real)
    requires r > 0.0 && 0.0 <= d <= r
    ensures 0.0 <= d / r <= 1.0
    ensures d == 0.0 ==> d / r == 0.0
    ensures d == r ==> d / r == 1.0
  {
    MeanBounds(d, r, 0.0, 1.0);
  }

  // ---------------------------------------------------------------------
  // applySmoothing
  // ---------------------------------------------------------------------

  /** C++ int division by 2, truncating toward zero. */
  function Half(w: int): int
  {
    if w >= 0 then w / 2 else -((-w) / 2)
  }

  /** The first and last index applySmoothing averages over. */
  function WindowStart(index: nat, window: int): int
  {
    Max(0, index - Half(window))
  }

  function WindowEnd(n: nat, index: nat, window: int): int
  {
    Min(n - 1, index + Half(window))
  }

  /** The average applySmoothing returns: sum over count, NaN when the window is empty. */
  function Smoothed(stream: seq<real>, index: nat, window: int): Double
    requires index < |stream|
  {
    var s, e := WindowStart(index, window), WindowEnd(|stream|, index, window);
    if s <= e then Divide(Sum(stream[s..e + 1]), (e - s + 1) as real) else Divide(0.0, 0.0)
  }

  /** applySmoothing: the loop over [start, end] summing and counting the readings. */
  method ApplySmoothing(stream: seq<real>, index: nat, window: int) returns (r: Double)
    requires index < |stream|
    ensures r == Smoothed(stream, index, window)
  {
    var sum, count := 0.0, 0;
    var start, end := WindowStart(index, window), WindowEnd(|stream|, index, window);
    var i := start;
    while i <= end
      invariant start <= end ==> start <= i <= end + 1 && sum == Sum(stream[start..i])
      invariant start > end ==> i == start && sum == 0.0
      invariant count == i - start
    {
      assert stream[start..i + 1][..i - start] == stream[start..i];
      sum := sum + stream[i];
      count := count + 1;
      i := i + 1;
    }
    r := Divide(sum, count as real);
  }

  /** For a window of at least 0 the averaged range is in bounds and holds the index, so it is never empty. */
  lemma SmoothingWindowHoldsTheIndex(n: nat, index: nat, window: int)
    requires window >= 0 && index < n
    ensures 0 <= WindowStart(index, window) <= index <= WindowEnd(n, index, window) < n
  {
  }

  /** lo n <= Sum(s) <= hi n when every element lies in [lo, hi]. */
  lemma {:induction false} SumBounds(s: seq<real>, lo: real, hi: real)
    requires forall k | 0 <= k < |s| :: lo <= s[k] <= hi
    ensures lo * (|s| as real) <= Sum(s) <= hi * (|s| as real)
  {
    if |s| > 0 {
      SumBounds(s[..|s| - 1], lo, hi);
    }
  }

  /** A smoothed reading lies between the lowest and the highest reading of its window. */
  lemma SmoothedLiesInTheWindowRange(stream: seq<real>, index: nat, window: int, lo: real, hi: real)
    requires window >= 0 && index < |stream|
    requires forall k | WindowStart(index, window) <= k <= WindowEnd(|stream|, index, window) :: lo <= stream[k] <= hi
    ensures Smoothed(stream, index, window).Finite?
    ensures lo <= Smoothed(stream, index, window).value <= hi
  {
    var s, e := WindowStart(index, window), WindowEnd(|stream|, index, window);
    SmoothingWindowHoldsTheIndex(|stream|, index, window);
    var w := stream[s..e + 1];
    forall k | 0 <= k < |w|
      ensures lo <= w[k] <= hi
    {
      assert w[k] == stream[s + k];
    }
    assert Smoothed(stream, index, window) == Divide(Sum(w), |w| as real);
    MeanOfBounded(w, lo, hi);
  }

  /** The mean of a non-empty sequence lies between any bounds of its elements. */
  lemma MeanOfBounded(w: seq<real>, lo: real, hi: real)
    requires |w| > 0 && forall k | 0 <= k < |w| :: lo <= w[k] <= hi
    ensures Divide(Sum(w), |w| as real).Finite?
    ensures lo <= Divide(Sum(w), |w| as real).value <= hi
  {
    SumBounds(w, lo, hi);
    MeanBounds(Sum(w), |w| as real, lo, hi);
  }

  /** Smoothing leaves a constant stream as it is. */
  lemma SmoothingKeepsAConstant(stream: seq<real>, index: nat, window: int, c: real)
    requires window >= 0 && index < |stream|
    requires forall k | 0 <= k < |stream| :: stream[k] == c
    ensures Smoothed(stream, index, window) == Finite(c)
  {
    SmoothedLiesInTheWindowRange(stream, index, window, c, c);
  }

  // ---------------------------------------------------------------------
  // calculateTrend
  // ---------------------------------------------------------------------

  /** sum_x, sum_y, sum_xy and sum_xx after the first k points (x = 0, 1, …) of ys. */
  function LineSums(ys: seq<real>, k: nat): (real, real, real, real)
    requires k <= |ys|
  {
    if k == 0 then (0.0, 0.0, 0.0, 0.0)
    else
      var p := LineSums(ys, k - 1);
      var x, y := (k - 1) as real, ys[k - 1];
      (p.0 + x, p.1 + y, p.2 + x * y, p.3 + x * x)
  }

  lemma LineSumsStep(ys: seq<real>, i: nat, x: real, y: real)
    requires i < |ys| && x == i as real && y == ys[i]
    ensures var (sx, sy, sxy, sxx) := LineSums(ys, i);
      LineSums(ys, i + 1) == (sx + x, sy + y, sxy + x * y, sxx + x * x)
  {
    var p, q := LineSums(ys, i), LineSums(ys, i + 1);
    assert q.0 == p.0 + x && q.1 == p.1 + y && q.2 == p.2 + x * y && q.3 == p.3 + x * x;
  }

  /** Over five points sum_x is 10 and sum_xx is 30, whatever the readings. */
  lemma LineSumsOfFive(ys: seq<real>)
    requires |ys| == TrendPoints
    ensures LineSums(ys, TrendPoints)
            == (10.0, ys[0] + ys[1] + ys[2] + ys[3] + ys[4],
                ys[1] + 2.0 * ys[2] + 3.0 * ys[3] + 4.0 * ys[4], 30.0)
  {
    assert LineSums(ys, 1) == (0.0, ys[0], 0.0, 0.0);
    assert LineSums(ys, 2) == (1.0, ys[0] + ys[1], ys[1], 1.0);
    assert LineSums(ys, 3) == (3.0, ys[0] + ys[1] + ys[2], ys[1] + 2.0 * ys[2], 5.0);
    assert LineSums(ys, 4) == (6.0, ys[0] + ys[1] + ys[2] + ys[3], ys[1] + 2.0 * ys[2] + 3.0 * ys[3], 14.0);
  }

  /** The least-squares slope through the points (i, ys[i]) for the five points of calculateTrend. */
  function Slope(ys: seq<real>): real
    requires |ys| == TrendPoints
  {
    var n := TrendPoints as real;
    var (sx, sy, sxy, sxx) := LineSums(ys, TrendPoints);
    LineSumsOfFive(ys);
    (n * sxy - sx * sy) / (n * sxx - sx * sx)
  }

  /** What calculateTrend returns: 0 for the first five positions, else the slope through the five readings before. */
  function Trend(stream: seq<real>, index: nat): real
    requires index < TrendPoints || index <= |stream|
  {
    if index < TrendPoints then 0.0 else Slope(stream[index - TrendPoints..index])
  }

  /** calculateTrend: from position 5 on it reads only stream[index - 5 .. index - 1]. */
  method CalculateTrend(stream: seq<real>, index: nat) returns (slope: real)
    requires index < TrendPoints || index <= |stream|
    ensures slope == Trend(stream, index)
  {
    if index < TrendPoints {
      return 0.0;
    }
    var sumX, sumY, sumXY, sumXX := 0.0, 0.0, 0.0, 0.0;
    var n := TrendPoints;
    ghost var ys := stream[index - n..index];
    for i := 0 to n
      invariant (sumX, sumY, sumXY, sumXX) == LineSums(ys, i)
    {
      var x := i as real;
      var y := stream[index - n + i];
      LineSumsStep(ys, i, x, y);
      sumX := sumX + x;
      sumY := sumY + y;
      sumXY := sumXY + x * y;
      sumXX := sumXX + x * x;
    }
    SlopeOfTheSums(ys, sumX, sumY, sumXY, sumXX);
    assert Trend(stream, index) == Slope(ys);
    slope := ((n as real) * sumXY - sumX * sumY) / ((n as real) * sumXX - sumX * sumX);
  }

  /** With x = 0 .. 4 the slope weighs the readings -2, -1, 0, 1, 2 over 10. */
  lemma SlopeWeights(ys: seq<real>)
    requires |ys| == TrendPoints
    ensures Slope(ys) == (2.0 * (ys[4] - ys[0]) + (ys[3] - ys[1])) / 10.0
  {
    var (sx, sy, sxy, sxx) := LineSums(ys, 5);
    LineSumsOfFive(ys);
    assert 5.0 * sxy - sx * sy == 5.0 * (2.0 * (ys[4] - ys[0]) + (ys[3] - ys[1]));
  }

  /** The sums the loop of calculateTrend ends with give its slope, never over a zero denominator. */
  lemma SlopeOfTheSums(ys: seq<real>, sx: real, sy: real, sxy: real, sxx: real)
    requires |ys| == TrendPoints && (sx, sy, sxy, sxx) == LineSums(ys, TrendPoints)
    ensures 5.0 * sxx - sx * sx == 50.0
    ensures Slope(ys) == (5.0 * sxy - sx * sy) / (5.0 * sxx - sx * sx)
  {
    LineSumsOfFive(ys);
  }

  /** Readings on a line a + b x give the trend b. */
  lemma TrendOfALine(stream: seq<real>, index: nat, a: real, b: real)
    requires TrendPoints <= index <= |stream|
    requires forall k | index - TrendPoints <= k < index :: stream[k] == a + b * ((k - (index - TrendPoints)) as real)
    ensures Trend(stream, index) == b
  {
    var ys := stream[index - TrendPoints..index];
    forall i | 0 <= i < TrendPoints
      ensures ys[i] == a + b * (i as real)
    {
      assert ys[i] == stream[index - TrendPoints + i];
    }
    SlopeWeights(ys);
  }

  /** Readings that never fall across the window give a trend of at least 0. */
  lemma RisingReadingsTrendUpward(stream: seq<real>, index: nat)
    requires TrendPoints <= index <= |stream|
    requires forall i, j | index - TrendPoints <= i <= j < index :: stream[i] <= stream[j]
    ensures Trend(stream, index) >= 0.0
  {
    var ys := stream[index - TrendPoints..index];
    SlopeWeights(ys);
    assert ys[0] <= ys[4] && ys[1] <= ys[3];
  }

  /** Two streams that agree on the five readings before `index` have the same trend there. */
  lemma TrendReadsOnlyTheFiveBefore(s1: seq<real>, s2: seq<real>, index: nat)
    requires TrendPoints <= index <= |s1| && index <= |s2|
    requires forall k | index - TrendPoints <= k < index :: s1[k] == s2[k]
    ensures Trend(s1, index) == Trend(s2, index)
  {
    assert s1[index - TrendPoints..index] == s2[index - TrendPoints..index];
  }

  // ---------------------------------------------------------------------
  // processDataStreamParallel
  // ---------------------------------------------------------------------

  /** The value the loop of processDataStreamParallel stores at position i. */
  function Processed(stream: seq<real>, operation: string, i: nat): Double
    requires i < |stream|
  {
    if operation == "normalize" then Normalized(stream, i)
    else if operation == "smooth" then Smoothed(stream, i, SmoothingWindow)
    else if operation == "trend" then Finite(Trend(stream, i))
    else Finite(0.0)
  }

  /**
   * processDataStreamParallel: a result of the stream's length, each
   * position written by the operation's own function; an unknown operation
   * leaves the zeros the vector starts with.
   */
  method ProcessDataStream(stream: seq<real>, operation: string) returns (result: seq<Double>)
    ensures |result| == |stream|
    ensures operation == "normalize" ==> forall i | 0 <= i < |stream| :: result[i] == Normalized(stream, i)
    ensures operation == "smooth" ==> forall i | 0 <= i < |stream| :: result[i] == Smoothed(stream, i, SmoothingWindow)
    ensures operation == "trend" ==> forall i | 0 <= i < |stream| :: result[i] == Finite(Trend(stream, i))
    ensures operation !in {"normalize", "smooth", "trend"} ==> forall i | 0 <= i < |stream| :: result[i] == Finite(0.0)
  {
    var values := new Double[|stream|](_ => Finite(0.0));
    for i := 0 to |stream|
      invariant forall j | 0 <= j < i :: values[j] == Processed(stream, operation, j)
      invariant forall j | i <= j < |stream| :: values[j] == Finite(0.0)
    {
      if operation == "normalize" {
        var lo := GetStreamMin(stream);
        var hi := GetStreamMax(stream);
        var lo' := GetStreamMin(stream);
        values[i] := Divide(stream[i] - lo, hi - lo');
      } else if operation == "smooth" {
        values[i] := ApplySmoothing(stream, i, SmoothingWindow);
      } else if operation == "trend" {
        var t := CalculateTrend(stream, i);
        values[i] := Finite(t);
      }
    }
    result := values[..];
  }

  /** Smoothing by the window of five never divides by zero: every smoothed reading is a number. */
  lemma SmoothedStreamIsFinite(stream: seq<real>, i: nat)
    requires i < |stream|
    ensures Processed(stream, "smooth", i).Finite?
  {
    SmoothingWindowHoldsTheIndex(|stream|, i, SmoothingWindow);
  }
}
