/**
 * The second MPI program, backend/mpi/analysis_mpi.c. For the operation
 * "efficiency" every rank sums the consumptions of its block and charges
 * 2.0 per reading as the optimal consumption; rank 0 reports the optimal
 * total over the actual total, as a percentage. For "anomaly_detection"
 * every rank flags the readings of its block above 15 A, and rank 0
 * lists the flagged positions in ascending order with their count.
 *
 * The ranks run one after the other (the rank is a parameter); a C double
 * is an exact real.
 */
module AnalysisMpi {
  import opened Base
  import opened Partition

  /** The threshold main passes to detect_anomalies_parallel. */
  const AnomalyThreshold: real := 15.0

  /** The optimal consumption charged per reading. */
  const OptimalPerReading: real := 2.0

  // ---------------------------------------------------------------------
  // calculate_efficiency_parallel
  // ---------------------------------------------------------------------

  /** The loop of calculate_efficiency_parallel over the rank's block: its sum and 2.0 per reading. */
  method LocalEfficiency(consumptions: seq<real>, rank: nat, size: nat) returns (localSum: real, localOptimal: real)
    requires rank < size
    ensures Start(|consumptions|, rank, size) <= End(|consumptions|, rank, size) <= |consumptions|
    ensures localSum == Sum(consumptions[Start(|consumptions|, rank, size)..End(|consumptions|, rank, size)])
    ensures localOptimal == OptimalPerReading * ((End(|consumptions|, rank, size) - Start(|consumptions|, rank, size)) as real)
  {
    BlockBounds(|consumptions|, rank, size);
    var start, end := Start(|consumptions|, rank, size), End(|consumptions|, rank, size);
    localSum, localOptimal := 0.0, 0.0;
    for i := start to end
      invariant localSum == Sum(consumptions[start..i])
      invariant localOptimal == OptimalPerReading * ((i - start) as real)
    {
      assert consumptions[start..i + 1][..i - start] == consumptions[start..i];
      localSum := localSum + consumptions[i];
      localOptimal := localOptimal + OptimalPerReading;
    }
  }

  /** MPI_Reduce with MPI_SUM of the local sums and of the local optima of ranks 0 .. k - 1. */
  function ReducedSums(consumptions: seq<real>, size: nat, k: nat): (real, real)
    requires 1 <= k <= size
  {
    var n := |consumptions|;
    BlockBounds(n, k - 1, size);
    var start, end := Start(n, k - 1, size), End(n, k - 1, size);
    var local := (Sum(consumptions[start..end]), OptimalPerReading * ((end - start) as real));
    if k == 1 then local
    else
      var prev := ReducedSums(consumptions, size, k - 1);
      (prev.0 + local.0, prev.1 + local.1)
  }

  lemma {:induction false} ReducedSumsPrefix(consumptions: seq<real>, size: nat, k: nat)
    requires 1 <= k <= size
    ensures End(|consumptions|, k - 1, size) <= |consumptions|
    ensures ReducedSums(consumptions, size, k)
            == (Sum(consumptions[..End(|consumptions|, k - 1, size)]),
                OptimalPerReading * (End(|consumptions|, k - 1, size) as real))
  {
    var n := |consumptions|;
    BlockBounds(n, k - 1, size);
    if k > 1 {
      ReducedSumsPrefix(consumptions, size, k - 1);
      BlockBounds(n, k - 2, size);
      var m, e := End(n, k - 2, size), End(n, k - 1, size);
      assert m == Start(n, k - 1, size) by {
        BlocksAreAdjacent(n, size);
      }
      assert consumptions[..e] == consumptions[..m] + consumptions[m..e];
      SumAppend(consumptions[..m], consumptions[m..e]);
      assert OptimalPerReading * (m as real) + OptimalPerReading * ((e - m) as real) == OptimalPerReading * (e as real);
    }
  }

  /** The optimal total over the actual one, in percent; None where C divides by zero (an infinity or NaN). */
  function Percentage(optimal: real, actual: real): (r: Option<real>)
    ensures r.None? <==> actual == 0.0
    ensures r.Some? ==> r.value * actual == optimal * 100.0
  {
    if actual == 0.0 then None else Some(optimal / actual * 100.0)
  }

  /** What rank 0 returns from the reduced sums. */
  function EfficiencyAtRoot(consumptions: seq<real>, size: nat): Option<real>
    requires size >= 1
  {
    var (globalSum, globalOptimal) := ReducedSums(consumptions, size, size);
    Percentage(globalOptimal, globalSum)
  }

  /**
   * Whatever the number of ranks, the reported efficiency is 2.0 per
   * reading over the total consumption, as a percentage.
   */
  lemma EfficiencyIsOptimalOverActual(consumptions: seq<real>, size: nat)
    requires size >= 1
    ensures EfficiencyAtRoot(consumptions, size)
            == Percentage(OptimalPerReading * (|consumptions| as real), Sum(consumptions))
  {
    ReducedSumsPrefix(consumptions, size, size);
    BlocksAreAdjacent(|consumptions|, size);
    assert consumptions[..|consumptions|] == consumptions;
  }

  /** Readings that all consume exactly the optimal 2.0 give an efficiency of 100. */
  lemma OptimalReadingsScore100(consumptions: seq<real>, size: nat)
    requires size >= 1 && |consumptions| > 0
    requires forall i | 0 <= i < |consumptions| :: consumptions[i] == OptimalPerReading
    ensures EfficiencyAtRoot(consumptions, size) == Some(100.0)
  {
    EfficiencyIsOptimalOverActual(consumptions, size);
    SumOfConstant(consumptions, OptimalPerReading);
    WholePercentage(OptimalPerReading * (|consumptions| as real));
  }

  lemma WholePercentage(x: real)
    requires x > 0.0
    ensures Percentage(x, x) == Some(100.0)
  {
  }

  // ---------------------------------------------------------------------
  // detect_anomalies_parallel and the report of main
  // ---------------------------------------------------------------------

  /** The flags an array holds once the readings in [lo, hi) have been checked, starting from calloc's zeros. */
  function Flags(currents: seq<real>, lo: nat, hi: nat): (f: seq<int>)
    ensures |f| == |currents|
  {
    seq(|currents|, i requires 0 <= i < |currents| => if lo <= i < hi && currents[i] > AnomalyThreshold then 1 else 0)
  }

  /**
   * detect_anomalies_parallel of rank `rank`: each reading of its block is
   * flagged 1 above the threshold and 0 otherwise; the rest of the array
   * is left as it was.
   */
  method DetectAnomaliesParallel(currents: seq<real>, rank: nat, size: nat, threshold: real, anomalies: array<int>)
    requires rank < size && anomalies.Length == |currents|
    modifies anomalies
    ensures Start(|currents|, rank, size) <= End(|currents|, rank, size) <= |currents|
    ensures forall i | 0 <= i < anomalies.Length ::
              anomalies[i] == if Start(|currents|, rank, size) <= i < End(|currents|, rank, size)
                              then (if currents[i] > threshold then 1 else 0)
                              else old(anomalies[i])
  {
    BlockBounds(|currents|, rank, size);
    var start, end := Start(|currents|, rank, size), End(|currents|, rank, size);
    for i := start to end
      invariant forall j | 0 <= j < anomalies.Length ::
                  anomalies[j] == if start <= j < i then (if currents[j] > threshold then 1 else 0) else old(anomalies[j])
    {
      anomalies[i] := if currents[i] > threshold then 1 else 0;
    }
  }

  /** The positions below `hi` whose flag is non-zero, in ascending order. */
  function NonZero(flags: seq<int>, hi: nat): seq<nat>
    requires hi <= |flags|
  {
    if hi == 0 then [] else NonZero(flags, hi - 1) + (if flags[hi - 1] != 0 then [hi - 1] else [])
  }

  /** The list is strictly ascending and holds exactly the positions below `hi` with a non-zero flag. */
  lemma {:induction false} NonZeroListsTheFlags(flags: seq<int>, hi: nat)
    requires hi <= |flags|
    ensures var r := NonZero(flags, hi);
      && (forall a, b | 0 <= a < b < |r| :: r[a] < r[b])
      && (forall k: nat :: k in r <==> k < hi && flags[k] != 0)
  {
    if hi > 0 {
      NonZeroListsTheFlags(flags, hi - 1);
      var prev := NonZero(flags, hi - 1);
      assert forall a | 0 <= a < |prev| :: prev[a] in prev;
    }
  }

  /** The report loop of main: every flagged position, in order, and their number. */
  method ReportAnomalies(anomalies: array<int>) returns (indices: seq<nat>, total: nat)
    ensures indices == NonZero(anomalies[..], anomalies.Length) && total == |indices|
  {
    indices, total := [], 0;
    for i := 0 to anomalies.Length
      invariant indices == NonZero(anomalies[..], i) && total == |indices|
    {
      if anomalies[i] != 0 {
        total := total + 1;
        indices := indices + [i];
      }
    }
  }

  /**
   * anomaly_detection as written: rank 0 reports from its own array, in
   * which only its block was ever checked; no rank's flags reach it.
   */
  method AnomalyDetectionAsWritten(currents: seq<real>, size: nat) returns (indices: seq<nat>, total: nat)
    requires size >= 1
    ensures End(|currents|, 0, size) <= |currents|
    ensures indices == NonZero(Flags(currents, 0, End(|currents|, 0, size)), |currents|) && total == |indices|
  {
    var anomalies := new int[|currents|](_ => 0);
    DetectAnomaliesParallel(currents, 0, size, AnomalyThreshold, anomalies);
    assert anomalies[..] == Flags(currents, 0, End(|currents|, 0, size));
    indices, total := ReportAnomalies(anomalies);
  }

  /** The position up to which ranks 0 .. r - 1 have checked the readings. */
  function Checked(n: nat, r: nat, size: nat): nat
    requires r <= size
  {
    if r == 0 then 0 else End(n, r - 1, size)
  }

  /** anomaly_detection with every rank's block checked into the array rank 0 reports from. */
  method AnomalyDetection(currents: seq<real>, size: nat) returns (indices: seq<nat>, total: nat)
    requires size >= 1
    ensures indices == NonZero(Flags(currents, 0, |currents|), |currents|) && total == |indices|
  {
    var n := |currents|;
    var anomalies := new int[n](_ => 0);
    BlocksAreAdjacent(n, size);
    for r := 0 to size
      invariant anomalies[..] == Flags(currents, 0, Checked(n, r, size))
    {
      DetectAnomaliesParallel(currents, r, size, AnomalyThreshold, anomalies);
      assert Checked(n, r, size) == Start(n, r, size);
      assert anomalies[..] == Flags(currents, 0, Checked(n, r + 1, size));
    }
    indices, total := ReportAnomalies(anomalies);
  }

  /** The corrected report lists, in ascending order, exactly the readings above 15 A. */
  lemma ReportListsEveryAnomaly(currents: seq<real>)
    ensures var r := NonZero(Flags(currents, 0, |currents|), |currents|);
      && (forall a, b | 0 <= a < b < |r| :: r[a] < r[b])
      && (forall k: nat :: k in r <==> k < |currents| && currents[k] > AnomalyThreshold)
  {
    NonZeroListsTheFlags(Flags(currents, 0, |currents|), |currents|);
  }

  /**
   * Two ranks and the currents [0, 20]: the reading above 15 A lies in
   * rank 1's block, so the code as written reports no anomaly at all.
   */
  lemma AsWrittenMissesOtherRanks()
    ensures End(2, 0, 2) == 1
    ensures NonZero(Flags([0.0, 20.0], 0, End(2, 0, 2)), 2) == []
    ensures NonZero(Flags([0.0, 20.0], 0, 2), 2) == [1]
  {
    assert Flags([0.0, 20.0], 0, 1) == [0, 0];
    assert Flags([0.0, 20.0], 0, 2) == [0, 1];
  }
}
