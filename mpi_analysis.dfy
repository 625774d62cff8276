/**
 * The distributed efficiency analysis, backend/mpi/mpi_analysis.c. Every
 * rank sums, bounds and classifies the offices of its block; rank 0
 * combines the partial results. The clustering pass assigns each office,
 * cyclically by rank, to the nearest of three consumption centroids, and
 * rank 0 moves every non-empty cluster's centroid to its members' mean, for
 * at most ten rounds or until a round changes nothing.
 *
 * The ranks run one after the other here (the rank is a parameter), and a
 * C double is an exact real.
 */
module MpiAnalysis {
  import opened Base
  import opened Partition

  /** OfficeData: one office as read from the input file. */
  datatype OfficeData = OfficeData(officeId: string, consumption: real, current: real, minTemp: real,
                                   maxTemp: real, activeTime: int, cost: real)

  // ---------------------------------------------------------------------
  // Efficiency
  // ---------------------------------------------------------------------

  /** 100 less ten times the consumption per unit of active time, before clamping. */
  function RawEfficiency(office: OfficeData): real
    requires office.activeTime != 0
  {
    100.0 - office.consumption / (office.activeTime as real) * 10.0
  }

  /** calculate_efficiency: 0 with no active time, otherwise the raw value clamped to [0, 100]. */
  function CalculateEfficiency(office: OfficeData): (e: real)
    ensures 0.0 <= e <= 100.0
    ensures office.activeTime == 0 ==> e == 0.0
    ensures office.activeTime != 0 ==>
              var raw := RawEfficiency(office);
              && (0.0 <= raw <= 100.0 ==> e == raw)
              && (raw < 0.0 ==> e == 0.0)
              && (raw > 100.0 ==> e == 100.0)
  {
    if office.activeTime == 0 then 0.0
    else
      var raw := RawEfficiency(office);
      if raw > 100.0 then 100.0 else if raw < 0.0 then 0.0 else raw
  }

  /** With the same positive active time, more consumption never means more efficiency. */
  lemma EfficiencyFallsWithConsumption(a: OfficeData, b: OfficeData)
    requires a.activeTime == b.activeTime > 0 && a.consumption <= b.consumption
    ensures CalculateEfficiency(a) >= CalculateEfficiency(b)
  {
    var t := a.activeTime as real;
    assert a.consumption / t <= b.consumption / t;
  }

  /** An office counts as optimal exactly when it uses less than 2 units per unit of active time. */
  lemma OptimalMeansUnderTwoPerUnit(office: OfficeData)
    requires office.activeTime > 0
    ensures CalculateEfficiency(office) > 80.0 <==> office.consumption < 2.0 * (office.activeTime as real)
  {
    var t := office.activeTime as real;
    assert office.consumption / t * t == office.consumption;
    if office.consumption < 2.0 * t {
      assert office.consumption / t < 2.0;
    } else {
      assert office.consumption / t >= 2.0;
    }
  }

  // ---------------------------------------------------------------------
  // The per-rank accumulation of analyze_energy_data
  // ---------------------------------------------------------------------

  /** The local variables of analyze_energy_data. */
  datatype Totals = Totals(consumption: real, maxConsumption: real, minConsumption: real, efficiency: real,
                           cost: real, alerts: nat, optimal: nat)

  /** local_min_consumption starts at 1e9. */
  const MinStart: real := 1000000000.0

  const Initial: Totals := Totals(0.0, 0.0, MinStart, 0.0, 0.0, 0, 0)

  /** An office raises an alert above 15 A or above 2 units of consumption. */
  predicate IsAlert(office: OfficeData)
  {
    office.current > 15.0 || office.consumption > 2.0
  }

  predicate IsOptimal(office: OfficeData)
  {
    CalculateEfficiency(office) > 80.0
  }

  /** One iteration of the loop over the block. */
  function Step(t: Totals, office: OfficeData): Totals
  {
    Totals(t.consumption + office.consumption,
           if office.consumption > t.maxConsumption then office.consumption else t.maxConsumption,
           if office.consumption < t.minConsumption then office.consumption else t.minConsumption,
           t.efficiency + CalculateEfficiency(office),
           t.cost + office.cost,
           t.alerts + (if IsAlert(office) then 1 else 0),
           t.optimal + (if IsOptimal(office) then 1 else 0))
  }

  /** The local totals after the loop has run over `s`, in order. */
  function Accumulated(s: seq<OfficeData>): Totals
  {
    if |s| == 0 then Initial else Step(Accumulated(s[..|s| - 1]), s[|s| - 1])
  }

  /**
   * The running maximum, which starts at 0, bounds every consumption from
   * above and is 0 or one of them; the running minimum, which starts at
   * 1e9, bounds them from below and is 1e9 or one of them.
   */
  lemma {:induction false} BoundsOfTheBlock(s: seq<OfficeData>)
    ensures var t := Accumulated(s);
      && t.maxConsumption >= 0.0 && t.minConsumption <= MinStart
      && (forall k | 0 <= k < |s| :: t.minConsumption <= s[k].consumption <= t.maxConsumption)
      && (t.maxConsumption == 0.0 || exists k | 0 <= k < |s| :: s[k].consumption == t.maxConsumption)
      && (t.minConsumption == MinStart || exists k | 0 <= k < |s| :: s[k].consumption == t.minConsumption)
  {
    if |s| > 0 {
      var p := s[..|s| - 1];
      BoundsOfTheBlock(p);
      var t := Accumulated(s);
      var n := |s| - 1;
      assert forall k | 0 <= k < n :: s[k] == p[k];
      if t.maxConsumption != 0.0 && t.maxConsumption != s[n].consumption {
        var k :| 0 <= k < |p| && p[k].consumption == Accumulated(p).maxConsumption;
        assert s[k].consumption == t.maxConsumption;
      }
      if t.minConsumption != MinStart && t.minConsumption != s[n].consumption {
        var k :| 0 <= k < |p| && p[k].consumption == Accumulated(p).minConsumption;
        assert s[k].consumption == t.minConsumption;
      }
    }
  }

  /** The positions of `s` whose office satisfies `p`. */
  function Positions(s: seq<OfficeData>, p: OfficeData -> bool): set<nat>
  {
    set k: nat | k < |s| && p(s[k])
  }

  lemma PositionsStep(s: seq<OfficeData>, p: OfficeData -> bool)
    requires |s| > 0
    ensures |Positions(s, p)| == |Positions(s[..|s| - 1], p)| + (if p(s[|s| - 1]) then 1 else 0)
  {
    var q := s[..|s| - 1];
    var n := |s| - 1;
    if p(s[n]) {
      assert Positions(s, p) == Positions(q, p) + {n};
    } else {
      assert Positions(s, p) == Positions(q, p);
    }
  }

  /** local_alert_count and local_optimal_count are the numbers of alerting and of optimal offices. */
  lemma {:induction false} CountersCountTheirOffices(s: seq<OfficeData>)
    ensures Accumulated(s).alerts == |Positions(s, IsAlert)|
    ensures Accumulated(s).optimal == |Positions(s, IsOptimal)|
  {
    if |s| > 0 {
      CountersCountTheirOffices(s[..|s| - 1]);
      PositionsStep(s, IsAlert);
      PositionsStep(s, IsOptimal);
    }
  }

  /** Every office adds between 0 and 100 to the efficiency sum. */
  lemma {:induction false} EfficiencySumBounds(s: seq<OfficeData>)
    ensures 0.0 <= Accumulated(s).efficiency <= 100.0 * (|s| as real)
  {
    if |s| > 0 {
      EfficiencySumBounds(s[..|s| - 1]);
    }
  }

  /** What MPI_Reduce makes of two partial results: sums add, the maximum and minimum of both are kept. */
  function Combine(a: Totals, b: Totals): Totals
  {
    Totals(a.consumption + b.consumption,
           if a.maxConsumption >= b.maxConsumption then a.maxConsumption else b.maxConsumption,
           if a.minConsumption <= b.minConsumption then a.minConsumption else b.minConsumption,
           a.efficiency + b.efficiency, a.cost + b.cost, a.alerts + b.alerts, a.optimal + b.optimal)
  }

  /** Running the loop over `a` then `b` gives what the reduction of the two partial results gives. */
  lemma {:induction false} AccumulatedAppend(a: seq<OfficeData>, b: seq<OfficeData>)
    ensures Accumulated(a + b) == Combine(Accumulated(a), Accumulated(b))
    decreases |b|
  {
    if |b| == 0 {
      RunningBounds(a);
      assert a + b == a;
    } else {
      var b' := b[..|b| - 1];
      AccumulatedAppend(a, b');
      var ab, x := a + b, b[|b| - 1];
      assert ab[..|ab| - 1] == a + b' && ab[|ab| - 1] == x;
      assert Accumulated(ab) == Step(Accumulated(a + b'), x);
      assert Accumulated(b) == Step(Accumulated(b'), x);
      StepCombine(Accumulated(a), Accumulated(b'), x);
    }
  }

  lemma {:induction false} RunningBounds(s: seq<OfficeData>)
    ensures Accumulated(s).maxConsumption >= 0.0 && Accumulated(s).minConsumption <= MinStart
  {
    if |s| > 0 {
      RunningBounds(s[..|s| - 1]);
    }
  }

  lemma StepCombine(a: Totals, b: Totals, office: OfficeData)
    ensures Step(Combine(a, b), office) == Combine(a, Step(b, office))
  {
  }

  /**
   * The loop of analyze_energy_data for rank `rank`: it visits the
   * rank's block in order and leaves the totals of that block.
   */
  method AnalyzeBlock(offices: seq<OfficeData>, rank: nat, size: nat) returns (local: Totals)
    requires rank < size
    ensures Start(|offices|, rank, size) <= End(|offices|, rank, size) <= |offices|
    ensures local == Accumulated(offices[Start(|offices|, rank, size)..End(|offices|, rank, size)])
  {
    BlockBounds(|offices|, rank, size);
    var start, end := Start(|offices|, rank, size), End(|offices|, rank, size);
    local := Initial;
    for i := start to end
      invariant local == Accumulated(offices[start..i])
    {
      assert offices[start..i + 1][..i - start] == offices[start..i];
      local := Step(local, offices[i]);
    }
  }

  /** The reduction over ranks 0 .. k - 1 of their blocks' totals. */
  function Reduced(offices: seq<OfficeData>, size: nat, k: nat): Totals
    requires 1 <= k <= size
  {
    BlockBounds(|offices|, k - 1, size);
    var block := Accumulated(offices[Start(|offices|, k - 1, size)..End(|offices|, k - 1, size)]);
    if k == 1 then block else Combine(Reduced(offices, size, k - 1), block)
  }

  lemma {:induction false} ReducedPrefix(offices: seq<OfficeData>, size: nat, k: nat)
    requires 1 <= k <= size
    ensures End(|offices|, k - 1, size) <= |offices|
    ensures Reduced(offices, size, k) == Accumulated(offices[..End(|offices|, k - 1, size)])
  {
    var n := |offices|;
    BlockBounds(n, k - 1, size);
    if k > 1 {
      ReducedPrefix(offices, size, k - 1);
      BlockBounds(n, k - 2, size);
      var m, e := End(n, k - 2, size), End(n, k - 1, size);
      assert m == Start(n, k - 1, size) by {
        BlocksAreAdjacent(n, size);
      }
      var a, b := offices[..m], offices[m..e];
      assert offices[..e] == a + b;
      AccumulatedAppend(a, b);
      assert Reduced(offices, size, k) == Combine(Reduced(offices, size, k - 1), Accumulated(b));
    } else {
      assert Start(n, 0, size) == 0;
    }
  }

  /** The blocks of all ranks together cover every office exactly once: the reduction is the whole run. */
  lemma ReductionCoversEveryOffice(offices: seq<OfficeData>, size: nat)
    requires size >= 1
    ensures Reduced(offices, size, size) == Accumulated(offices)
  {
    ReducedPrefix(offices, size, size);
    BlocksAreAdjacent(|offices|, size);
    assert offices[..|offices|] == offices;
  }

  /** AnalysisResult; the average is None where C divides 0.0 by an office count of 0. */
  datatype AnalysisResult = AnalysisResult(totalConsumption: real, maxConsumption: real, minConsumption: real,
                                           avgEfficiency: Option<real>, co2Saved: real, totalCost: real,
                                           alertCount: nat, optimalOffices: nat)

  /** 0.5 kg of CO2 per kWh. */
  const Co2PerKwh: real := 0.5

  /** The result rank 0 holds, from the reduced totals and the efficiency sum `efficiencySum` it averages. */
  function Result(global: Totals, efficiencySum: real, count: nat): AnalysisResult
  {
    AnalysisResult(global.consumption, global.maxConsumption, global.minConsumption,
                   if count == 0 then None else Some(efficiencySum / (count as real)),
                   global.consumption * Co2PerKwh, global.cost, global.alerts, global.optimal)
  }

  /** analyze_energy_data, as written: the average takes rank 0's local efficiency sum only. */
  function AnalyzeEnergyDataAsWritten(offices: seq<OfficeData>, size: nat): AnalysisResult
    requires size >= 1
  {
    Result(Reduced(offices, size, size), Reduced(offices, size, 1).efficiency, |offices|)
  }

  /** analyze_energy_data with the efficiency sum reduced like the other sums. */
  function AnalyzeEnergyData(offices: seq<OfficeData>, size: nat): AnalysisResult
    requires size >= 1
  {
    var global := Reduced(offices, size, size);
    Result(global, global.efficiency, |offices|)
  }

  /**
   * Two ranks and two offices with no consumption and one unit of active
   * time: each is 100% efficient, yet the code reports an average of 50
   * because only the first office's efficiency reaches the division.
   */
  lemma AverageAsWrittenDropsOtherRanks()
    ensures var o := OfficeData("A", 0.0, 0.0, 20.0, 25.0, 1, 0.0);
      && AnalyzeEnergyDataAsWritten([o, o], 2).avgEfficiency == Some(50.0)
      && AnalyzeEnergyData([o, o], 2).avgEfficiency == Some(100.0)
  {
    var o := OfficeData("A", 0.0, 0.0, 20.0, 25.0, 1, 0.0);
    var s := [o, o];
    assert Accumulated([o]).efficiency == 100.0 by {
      assert [o][..0] == [];
      assert CalculateEfficiency(o) == 100.0;
    }
    assert Reduced(s, 2, 1) == Accumulated([o]) by {
      assert Start(2, 0, 2) == 0 && End(2, 0, 2) == 1;
      assert s[0..1] == [o];
    }
    assert Reduced(s, 2, 2) == Combine(Accumulated([o]), Accumulated([o])) by {
      assert Start(2, 1, 2) == 1 && End(2, 1, 2) == 2;
      assert s[1..2] == [o];
    }
  }

  /** However many ranks share the work, rank 0 reports what a single pass over all offices gives. */
  lemma RanksDoNotChangeTheResult(offices: seq<OfficeData>, size: nat)
    requires size >= 1
    ensures AnalyzeEnergyData(offices, size) == Result(Accumulated(offices), Accumulated(offices).efficiency, |offices|)
  {
    ReductionCoversEveryOffice(offices, size);
  }

  /** The reported sums are over every office, and the counters count every alerting and every optimal office. */
  lemma ResultCountsEveryOffice(offices: seq<OfficeData>, size: nat)
    requires size >= 1
    ensures var r := AnalyzeEnergyData(offices, size);
      && r.totalConsumption == Accumulated(offices).consumption
      && r.co2Saved == r.totalConsumption * Co2PerKwh
      && r.totalCost == Accumulated(offices).cost
      && r.alertCount == |Positions(offices, IsAlert)|
      && r.optimalOffices == |Positions(offices, IsOptimal)|
  {
    RanksDoNotChangeTheResult(offices, size);
    CountersCountTheirOffices(offices);
  }

  /** The reported maximum and minimum bound every office's consumption. */
  lemma ResultBoundsEveryOffice(offices: seq<OfficeData>, size: nat)
    requires size >= 1
    ensures var r := AnalyzeEnergyData(offices, size);
      forall k | 0 <= k < |offices| :: r.minConsumption <= offices[k].consumption <= r.maxConsumption
  {
    RanksDoNotChangeTheResult(offices, size);
    BoundsOfTheBlock(offices);
  }

  /** The average efficiency is the mean over all offices, in [0, 100], and is missing only with no offices. */
  lemma AverageIsTheMeanEfficiency(offices: seq<OfficeData>, size: nat)
    requires size >= 1
    ensures var r := AnalyzeEnergyData(offices, size);
      && (r.avgEfficiency.None? <==> |offices| == 0)
      && (|offices| > 0 ==> r.avgEfficiency == Some(Accumulated(offices).efficiency / (|offices| as real)))
      && (r.avgEfficiency.Some? ==> 0.0 <= r.avgEfficiency.value <= 100.0)
  {
    RanksDoNotChangeTheResult(offices, size);
    EfficiencySumBounds(offices);
    ResultAverage(Accumulated(offices), |offices|);
  }

  lemma ResultAverage(t: Totals, count: nat)
    requires 0.0 <= t.efficiency <= 100.0 * (count as real)
    ensures var avg := Result(t, t.efficiency, count).avgEfficiency;
      && (avg.None? <==> count == 0)
      && (avg.Some? ==> 0.0 <= avg.value <= 100.0)
  {
    if count > 0 {
      MeanBounds(t.efficiency, count as real, 0.0, 100.0);
    }
  }

  // ---------------------------------------------------------------------
  // consumption_clustering
  // ---------------------------------------------------------------------

  const Clusters: nat := 3
  const MaxIterations: nat := 10
  const InitialCentroids: seq<real> := [0.5, 1.5, 3.0]

  /** min_distance starts at 1e9. */
  const FarAway: real := 1000000000.0

  function Distance(x: real, y: real): real
  {
    if x >= y then x - y else y - x
  }

  /** The inner loop over the centroids after `n` of them: (min_distance, best_cluster). */
  function Scan(x: real, centroids: seq<real>, n: nat): (real, nat)
    requires n <= |centroids|
  {
    if n == 0 then (FarAway, 0)
    else
      var prev := Scan(x, centroids, n - 1);
      var d := Distance(x, centroids[n - 1]);
      if d < prev.0 then (d, n - 1) else prev
  }

  /** The cluster the inner loop picks for consumption `x`. */
  function Nearest(x: real, centroids: seq<real>): nat
  {
    Scan(x, centroids, |centroids|).1
  }

  lemma {:induction false} ScanFacts(x: real, centroids: seq<real>, n: nat)
    requires n <= |centroids|
    ensures var (m, b) := Scan(x, centroids, n);
      && (n == 0 ==> b == 0) && (n > 0 ==> b < n)
      && (forall c | 0 <= c < n :: m <= Distance(x, centroids[c]))
      && ((m == FarAway && b == 0) || (m == Distance(x, centroids[b]) && b < n && m < FarAway))
      && (m < FarAway ==> forall c | 0 <= c < b :: Distance(x, centroids[c]) > m)
      && m <= FarAway
  {
    if n > 0 {
      ScanFacts(x, centroids, n - 1);
    }
  }

  /**
   * The strict comparison picks the lowest-indexed nearest centroid. When
   * every centroid is 1e9 or more away, none beats the starting distance
   * and cluster 0 is kept.
   */
  lemma NearestIsTheFirstClosest(x: real, centroids: seq<real>)
    requires |centroids| > 0
    ensures var b := Nearest(x, centroids);
      && b < |centroids|
      && ((exists c | 0 <= c < |centroids| :: Distance(x, centroids[c]) < FarAway) ==>
            && (forall c | 0 <= c < |centroids| :: Distance(x, centroids[b]) <= Distance(x, centroids[c]))
            && (forall c | 0 <= c < b :: Distance(x, centroids[c]) > Distance(x, centroids[b])))
      && ((forall c | 0 <= c < |centroids| :: Distance(x, centroids[c]) >= FarAway) ==> b == 0)
  {
    ScanFacts(x, centroids, |centroids|);
  }

  /** The inner loop of the assignment: the nearest centroid by strict `<`. */
  method NearestCentroid(x: real, centroids: array<real>) returns (best: nat)
    ensures best == Nearest(x, centroids[..])
  {
    var minDistance := FarAway;
    best := 0;
    for c := 0 to centroids.Length
      invariant (minDistance, best) == Scan(x, centroids[..], c)
    {
      var distance := Distance(x, centroids[c]);
      if distance < minDistance {
        minDistance := distance;
        best := c;
      }
    }
  }

  /** The positions where two arrays' contents differ. */
  function Changed(before: seq<int>, after: seq<int>, bound: int): set<nat>
    requires |before| == |after|
  {
    set j: nat | j < |after| && j < bound && after[j] != before[j]
  }

  /** One visit of the assignment loop adds at most its own index to the changed positions. */
  lemma ChangedStep(before: seq<int>, prev: seq<int>, next: seq<int>, i: nat, size: nat)
    requires |before| == |prev| == |next| && i < |prev| && size >= 1
    requires forall j | i <= j < i + size && j < |prev| :: prev[j] == before[j]
    requires next == prev[i := next[i]]
    ensures |Changed(before, next, i + size)| == |Changed(before, prev, i)| + (if next[i] != before[i] then 1 else 0)
  {
    if next[i] != before[i] {
      assert Changed(before, next, i + size) == Changed(before, prev, i) + {i};
    } else {
      assert Changed(before, next, i + size) == Changed(before, prev, i);
    }
  }

  /**
   * The assignment loop of rank `rank`: it visits i = rank, rank + size,
   * …, puts each visited office in its nearest cluster and counts the
   * entries it changed; the other ranks' entries keep their values.
   */
  method AssignClusters(offices: seq<OfficeData>, centroids: array<real>, clusters: array<int>, rank: nat, size: nat)
    returns (changes: nat)
    requires rank < size && clusters.Length == |offices|
    modifies clusters
    ensures forall j | 0 <= j < clusters.Length ::
              clusters[j] == if j % size == rank then Nearest(offices[j].consumption, centroids[..]) else old(clusters[j])
    ensures changes == |Changed(old(clusters[..]), clusters[..], clusters.Length)|
  {
    ghost var cs, before := centroids[..], clusters[..];
    StrideStart(size, rank);
    var i := rank;
    changes := 0;
    while i < clusters.Length
      invariant rank <= i && i % size == rank
      invariant forall j | 0 <= j < clusters.Length ::
                  clusters[j] == if j < i && j % size == rank then Nearest(offices[j].consumption, cs) else before[j]
      invariant changes == |Changed(before, clusters[..], i)|
      decreases clusters.Length - i
    {
      StrideStep(i, size, rank);
      ghost var prev := clusters[..];
      var best := NearestCentroid(offices[i].consumption, centroids);
      if clusters[i] != best {
        clusters[i] := best;
        changes := changes + 1;
      }
      ChangedStep(before, prev, clusters[..], i, size);
      i := i + size;
    }
    assert Changed(before, clusters[..], i) == Changed(before, clusters[..], clusters.Length);
  }

  /** The consumption summed, and the offices counted, over cluster `c` among the first |cl| offices. */
  function MemberSum(offices: seq<OfficeData>, cl: seq<int>, c: int): real
    requires |cl| <= |offices|
  {
    if |cl| == 0 then 0.0
    else MemberSum(offices, cl[..|cl| - 1], c) + (if cl[|cl| - 1] == c then offices[|cl| - 1].consumption else 0.0)
  }

  function MemberCount(offices: seq<OfficeData>, cl: seq<int>, c: int): nat
    requires |cl| <= |offices|
  {
    if |cl| == 0 then 0
    else MemberCount(offices, cl[..|cl| - 1], c) + (if cl[|cl| - 1] == c then 1 else 0)
  }

  /** Each non-empty cluster's centroid becomes its members' mean; an empty one keeps its centroid. */
  function Recomputed(offices: seq<OfficeData>, cl: seq<int>, centroids: seq<real>): (r: seq<real>)
    requires |cl| == |offices| && |centroids| == Clusters
    ensures |r| == Clusters
  {
    seq(Clusters, c requires 0 <= c < Clusters =>
      if MemberCount(offices, cl, c) > 0 then MemberSum(offices, cl, c) / (MemberCount(offices, cl, c) as real)
      else centroids[c])
  }

  lemma {:induction false} MemberBounds(offices: seq<OfficeData>, cl: seq<int>, c: int, lo: real, hi: real)
    requires |cl| <= |offices|
    requires forall i | 0 <= i < |cl| && cl[i] == c :: lo <= offices[i].consumption <= hi
    ensures lo * (MemberCount(offices, cl, c) as real) <= MemberSum(offices, cl, c)
                                                        <= hi * (MemberCount(offices, cl, c) as real)
  {
    if |cl| > 0 {
      var p := cl[..|cl| - 1];
      MemberBounds(offices, p, c, lo, hi);
      var n := MemberCount(offices, p, c) as real;
      if cl[|cl| - 1] == c {
        assert lo * (n + 1.0) == lo * n + lo && hi * (n + 1.0) == hi * n + hi;
      }
    }
  }

  /**
   * A recomputed centroid lies among its members: when every member of a
   * non-empty cluster consumes between `lo` and `hi`, so does the mean.
   */
  lemma MeanLiesAmongMembers(offices: seq<OfficeData>, cl: seq<int>, centroids: seq<real>, c: nat, lo: real, hi: real)
    requires |cl| == |offices| && |centroids| == Clusters && c < Clusters
    requires MemberCount(offices, cl, c) > 0
    requires forall i | 0 <= i < |cl| && cl[i] == c :: lo <= offices[i].consumption <= hi
    ensures lo <= Recomputed(offices, cl, centroids)[c] <= hi
  {
    MemberBounds(offices, cl, c, lo, hi);
    MeanBounds(MemberSum(offices, cl, c), MemberCount(offices, cl, c) as real, lo, hi);
  }

  /** The first loop of the centroid update: per-cluster sums and counts in two three-slot arrays. */
  method SumClusters(offices: seq<OfficeData>, clusters: array<int>) returns (sums: array<real>, counts: array<nat>)
    requires clusters.Length == |offices|
    requires forall i | 0 <= i < clusters.Length :: 0 <= clusters[i] < Clusters
    ensures fresh(sums) && fresh(counts) && sums.Length == Clusters && counts.Length == Clusters
    ensures forall c | 0 <= c < Clusters ::
              sums[c] == MemberSum(offices, clusters[..], c) && counts[c] == MemberCount(offices, clusters[..], c)
  {
    sums := new real[Clusters](_ => 0.0);
    counts := new nat[Clusters](_ => 0);
    for i := 0 to clusters.Length
      invariant forall c | 0 <= c < Clusters ::
                  sums[c] == MemberSum(offices, clusters[..i], c) && counts[c] == MemberCount(offices, clusters[..i], c)
    {
      assert clusters[..i + 1][..i] == clusters[..i];
      var c := clusters[i];
      sums[c] := sums[c] + offices[i].consumption;
      counts[c] := counts[c] + 1;
    }
    assert clusters[..clusters.Length] == clusters[..];
  }

  /** The centroid update of rank 0: the mean of each non-empty cluster; an empty cluster keeps its centroid. */
  method RecomputeCentroids(offices: seq<OfficeData>, clusters: array<int>, centroids: array<real>)
    requires clusters.Length == |offices| && centroids.Length == Clusters
    requires forall i | 0 <= i < clusters.Length :: 0 <= clusters[i] < Clusters
    modifies centroids
    ensures centroids[..] == Recomputed(offices, clusters[..], old(centroids[..]))
  {
    var sumArray, countArray := SumClusters(offices, clusters);
    var sums, counts := sumArray[..], countArray[..];
    ghost var target := Recomputed(offices, clusters[..], centroids[..]);
    for c := 0 to Clusters
      invariant forall c' | 0 <= c' < c :: centroids[c'] == target[c']
      invariant forall c' | c <= c' < Clusters :: centroids[c'] == old(centroids[c'])
    {
      if counts[c] > 0 {
        centroids[c] := sums[c] / (counts[c] as real);
      }
    }
  }

  /**
   * One round's assignment as it was evidently meant: every office takes
   * the cluster its owning rank computed (a gather), so together the ranks
   * put every office in its nearest cluster.
   */
  method AssignAllRanks(offices: seq<OfficeData>, centroids: array<real>, clusters: array<int>, size: nat)
    returns (changes: nat)
    requires size >= 1 && clusters.Length == |offices|
    modifies clusters
    ensures forall j | 0 <= j < clusters.Length :: clusters[j] == Nearest(offices[j].consumption, centroids[..])
    ensures changes == 0 <==> clusters[..] == old(clusters[..])
  {
    ghost var cs, before := centroids[..], clusters[..];
    changes := 0;
    for r := 0 to size
      invariant forall j | 0 <= j < clusters.Length ::
                  clusters[j] == if j % size < r then Nearest(offices[j].consumption, cs) else before[j]
      invariant changes == 0 <==> clusters[..] == before
    {
      ghost var pre := clusters[..];
      var local := AssignClusters(offices, centroids, clusters, r, size);
      if local > 0 {
        assert Changed(pre, clusters[..], clusters.Length) != {};
        ghost var j: nat :| j in Changed(pre, clusters[..], clusters.Length);
        assert clusters[j] != before[j];
      } else {
        assert Changed(pre, clusters[..], clusters.Length) == {};
        forall j | 0 <= j < clusters.Length
          ensures clusters[j] == pre[j]
        {
          assert j !in Changed(pre, clusters[..], clusters.Length);
        }
        assert clusters[..] == pre;
      }
      changes := changes + local;
    }
  }

  /** Every cluster the assignment picks is one of the three. */
  lemma NearestBelowClusters(offices: seq<OfficeData>, centroids: seq<real>, cl: seq<int>)
    requires |centroids| == Clusters && |cl| == |offices|
    requires forall i | 0 <= i < |cl| :: cl[i] == Nearest(offices[i].consumption, centroids)
    ensures forall i | 0 <= i < |cl| :: 0 <= cl[i] < Clusters
  {
    forall i | 0 <= i < |cl|
      ensures 0 <= cl[i] < Clusters
    {
      NearestIsTheFirstClosest(offices[i].consumption, centroids);
    }
  }

  /**
   * consumption_clustering as evidently meant, with every office taking
   * its owning rank's assignment after each round. It runs at least one and at most ten rounds. After the last round
   * every office is in the cluster nearest the centroids that round used
   * (`last`), and when the rounds stopped because one changed nothing,
   * after a first round, those centroids are the means of their non-empty
   * clusters: a fixed point of the k-means update.
   */
  method ConsumptionClustering(offices: seq<OfficeData>, clusters: array<int>, size: nat)
    returns (iterations: nat, last: seq<real>)
    requires size >= 1 && clusters.Length == |offices|
    modifies clusters
    ensures 1 <= iterations <= MaxIterations && |last| == Clusters
    ensures forall i | 0 <= i < clusters.Length ::
              0 <= clusters[i] < Clusters && clusters[i] == Nearest(offices[i].consumption, last)
    ensures 2 <= iterations < MaxIterations ==> last == Recomputed(offices, clusters[..], last)
  {
    var centroids := new real[Clusters](c requires 0 <= c < Clusters => InitialCentroids[c]);
    var changes := 1;
    iterations := 0;
    last := centroids[..];
    ghost var previous := clusters[..];
    ghost var used := last;
    while changes > 0 && iterations < MaxIterations
      invariant iterations <= MaxIterations && |last| == Clusters && |used| == Clusters
      decreases MaxIterations - iterations
      invariant iterations == 0 ==> changes > 0
      invariant iterations > 0 ==> forall i | 0 <= i < clusters.Length ::
                  0 <= clusters[i] < Clusters && clusters[i] == Nearest(offices[i].consumption, last)
      invariant iterations > 0 ==> centroids[..] == Recomputed(offices, clusters[..], last)
      invariant |previous| == clusters.Length
      invariant iterations >= 2 ==> last == Recomputed(offices, previous, used)
      invariant iterations > 0 && changes == 0 ==> clusters[..] == previous
    {
      ghost var before := clusters[..];
      used := last;
      last := centroids[..];
      changes := AssignAllRanks(offices, centroids, clusters, size);
      NearestBelowClusters(offices, last, clusters[..]);
      previous := before;
      RecomputeCentroids(offices, clusters, centroids);
      iterations := iterations + 1;
    }
  }

  // ---------------------------------------------------------------------
  // consumption_clustering as written: private copies merged by MPI_MAX
  // ---------------------------------------------------------------------

  /** The nearest cluster of every office. */
  function Best(offices: seq<OfficeData>, centroids: seq<real>): (b: seq<int>)
    ensures |b| == |offices|
    ensures forall i | 0 <= i < |b| :: b[i] == Nearest(offices[i].consumption, centroids)
  {
    seq(|offices|, i requires 0 <= i < |offices| => Nearest(offices[i].consumption, centroids) as int)
  }

  /**
   * The assignment after one round as written. Every rank starts from the
   * same array, rewrites its own offices and leaves the others' entries;
   * MPI_MAX then keeps the largest value any copy holds. With one rank
   * that is the owner's value; with more, an office's old cluster survives
   * whenever it is larger than its nearest one.
   */
  function MergedRound(cl: seq<int>, best: seq<int>, size: nat): (m: seq<int>)
    requires |cl| == |best|
    ensures |m| == |cl|
  {
    seq(|cl|, j requires 0 <= j < |cl| => if size == 1 then best[j] else Max(cl[j], best[j]))
  }

  /** MPI_Allreduce with MPI_MAX of one more rank's copy into the running result. */
  method MaxInto(acc: array<int>, copy: array<int>)
    requires acc.Length == copy.Length && acc != copy
    modifies acc
    ensures forall j | 0 <= j < acc.Length :: acc[j] == Max(old(acc[j]), copy[j])
  {
    for j := 0 to acc.Length
      invariant forall k | 0 <= k < acc.Length :: acc[k] == if k < j then Max(old(acc[k]), copy[k]) else old(acc[k])
    {
      acc[j] := Max(acc[j], copy[j]);
    }
  }

  /** A rank's loop found no change exactly when every office it owns was already in its nearest cluster. */
  lemma NoLocalChange(offices: seq<OfficeData>, cs: seq<real>, before: seq<int>, after: seq<int>, rank: nat, size: nat)
    requires rank < size && |before| == |after| == |offices|
    requires forall j | 0 <= j < |after| ::
               after[j] == if j % size == rank then Nearest(offices[j].consumption, cs) else before[j]
    ensures |Changed(before, after, |after|)| == 0 <==>
              forall j | 0 <= j < |after| && j % size == rank :: before[j] == Nearest(offices[j].consumption, cs)
  {
    if |Changed(before, after, |after|)| != 0 {
      var j: nat :| j in Changed(before, after, |after|);
      assert j % size == rank && before[j] != Nearest(offices[j].consumption, cs);
    } else {
      forall j | 0 <= j < |after| && j % size == rank
        ensures before[j] == Nearest(offices[j].consumption, cs)
      {
        assert j !in Changed(before, after, |after|);
      }
    }
  }

  /** A rank's private copy of the assignment array. */
  method CopyOf(a: array<int>) returns (b: array<int>)
    ensures fresh(b) && b[..] == a[..]
  {
    b := new int[a.Length];
    for j := 0 to a.Length
      invariant forall k | 0 <= k < j :: b[k] == a[k]
    {
      b[j] := a[j];
    }
  }

  /**
   * The ranks' loops on their private copies of `clusters`, merged with
   * MPI_MAX into a fresh array, and the sum of their change counts.
   */
  method ReduceCopies(offices: seq<OfficeData>, centroids: array<real>, clusters: array<int>, size: nat)
    returns (merged: array<int>, changes: nat)
    requires size >= 1 && clusters.Length == |offices|
    ensures fresh(merged) && merged.Length == clusters.Length
    ensures forall j | 0 <= j < merged.Length ::
              merged[j] == if size == 1 then Nearest(offices[j].consumption, centroids[..])
                           else Max(clusters[j], Nearest(offices[j].consumption, centroids[..]))
    ensures changes == 0 <==> forall j | 0 <= j < clusters.Length :: clusters[j] == Nearest(offices[j].consumption, centroids[..])
  {
    ghost var cs, before := centroids[..], clusters[..];
    var n := clusters.Length;
    merged := CopyOf(clusters);
    changes := AssignClusters(offices, centroids, merged, 0, size);
    NoLocalChange(offices, cs, before, merged[..], 0, size);
    for r := 1 to size
      invariant merged.Length == n && fresh(merged)
      invariant forall j | 0 <= j < n ::
                  merged[j] == if j % size < r then (if r >= 2 then Max(before[j], Nearest(offices[j].consumption, cs))
                                                    else Nearest(offices[j].consumption, cs))
                               else before[j]
      invariant changes == 0 <==> forall j | 0 <= j < n && j % size < r :: before[j] == Nearest(offices[j].consumption, cs)
    {
      var copy := CopyOf(clusters);
      var local := AssignClusters(offices, centroids, copy, r, size);
      NoLocalChange(offices, cs, before, copy[..], r, size);
      MaxInto(merged, copy);
      changes := changes + local;
    }
  }

  /**
   * One round's assignment as written: each rank's loop runs on a private
   * copy of the array, the copies are merged with MPI_MAX back into the
   * array, and the ranks' change counts are summed. The result is the
   * merged round, and no rank changed anything exactly when every office
   * was already in its nearest cluster.
   */
  method AssignAllRanksAsWritten(offices: seq<OfficeData>, centroids: array<real>, clusters: array<int>, size: nat)
    returns (changes: nat)
    requires size >= 1 && clusters.Length == |offices|
    modifies clusters
    ensures clusters[..] == MergedRound(old(clusters[..]), Best(offices, centroids[..]), size)
    ensures changes == 0 <==> old(clusters[..]) == Best(offices, centroids[..])
  {
    ghost var before, best := clusters[..], Best(offices, centroids[..]);
    var merged;
    merged, changes := ReduceCopies(offices, centroids, clusters, size);
    assert merged[..] == MergedRound(before, best, size);
    for j := 0 to clusters.Length
      invariant merged[..] == MergedRound(before, best, size)
      invariant forall k | 0 <= k < clusters.Length :: clusters[k] == if k < j then merged[k] else before[k]
    {
      clusters[j] := merged[j];
    }
    assert clusters[..] == merged[..];
  }

  /**
   * consumption_clustering as written. Every office stays among the three
   * clusters. With one rank every office ends in the cluster nearest the
   * centroids of the last round; with more, no office's cluster ever goes
   * down, and after the last round each is at least its nearest one. When
   * the rounds stopped early because no rank changed anything, every
   * office is in its nearest cluster whatever the number of ranks. The
   * loop tests the total of the ranks' change counts; in the C each rank
   * tests its own, and ranks whose counts differ deadlock there.
   */
  method ConsumptionClusteringAsWritten(offices: seq<OfficeData>, clusters: array<int>, size: nat)
    returns (iterations: nat, last: seq<real>)
    requires size >= 1 && clusters.Length == |offices|
    requires forall i | 0 <= i < clusters.Length :: 0 <= clusters[i] < Clusters
    modifies clusters
    ensures 1 <= iterations <= MaxIterations && |last| == Clusters
    ensures forall i | 0 <= i < clusters.Length :: 0 <= clusters[i] < Clusters
    ensures size == 1 ==> forall i | 0 <= i < clusters.Length :: clusters[i] == Nearest(offices[i].consumption, last)
    ensures size >= 2 ==> forall i | 0 <= i < clusters.Length ::
              old(clusters[i]) <= clusters[i] && Nearest(offices[i].consumption, last) <= clusters[i]
    ensures iterations < MaxIterations ==>
              forall i | 0 <= i < clusters.Length :: clusters[i] == Nearest(offices[i].consumption, last)
  {
    var centroids := new real[Clusters](c requires 0 <= c < Clusters => InitialCentroids[c]);
    var changes := 1;
    iterations := 0;
    last := centroids[..];
    while changes > 0 && iterations < MaxIterations
      invariant iterations <= MaxIterations && |last| == Clusters && centroids.Length == Clusters
      invariant forall i | 0 <= i < clusters.Length :: 0 <= clusters[i] < Clusters
      invariant size >= 2 ==> forall i | 0 <= i < clusters.Length :: old(clusters[i]) <= clusters[i]
      invariant iterations == 0 ==> changes > 0
      invariant iterations > 0 && size == 1 ==>
                  forall i | 0 <= i < clusters.Length :: clusters[i] == Nearest(offices[i].consumption, last)
      invariant iterations > 0 && size >= 2 ==>
                  forall i | 0 <= i < clusters.Length :: Nearest(offices[i].consumption, last) <= clusters[i]
      invariant iterations > 0 && changes == 0 ==>
                  forall i | 0 <= i < clusters.Length :: clusters[i] == Nearest(offices[i].consumption, last)
      decreases MaxIterations - iterations
    {
      ghost var before := clusters[..];
      last := centroids[..];
      changes := AssignAllRanksAsWritten(offices, centroids, clusters, size);
      NearestBelowClusters(offices, last, Best(offices, last));
      RecomputeCentroids(offices, clusters, centroids);
      iterations := iterations + 1;
    }
  }

  /** The six offices of the counterexample, by consumption. */
  function Offices(consumptions: seq<real>): (s: seq<OfficeData>)
    ensures |s| == |consumptions|
    ensures forall i | 0 <= i < |s| :: s[i].consumption == consumptions[i]
  {
    seq(|consumptions|, i requires 0 <= i < |consumptions| => OfficeData("", consumptions[i], 0.0, 0.0, 0.0, 0, 0.0))
  }

  /** The members of the three clusters after the counterexample's first round. */
  lemma FirstRoundMembers(offices: seq<OfficeData>)
    requires offices == Offices([2.4, 2.4, 10.0, 10.0, 1.1, 1.1])
    ensures forall c | 0 <= c < Clusters ::
              MemberCount(offices, [2, 2, 2, 2, 1, 1], c) == [0, 2, 4][c]
              && MemberSum(offices, [2, 2, 2, 2, 1, 1], c) == [0.0, 2.2, 24.8][c]
  {
    var cl := [2, 2, 2, 2, 1, 1];
    assert cl[..5] == [2, 2, 2, 2, 1] && cl[..5][..4] == [2, 2, 2, 2] && cl[..5][..4][..3] == [2, 2, 2];
    assert cl[..5][..4][..3][..2] == [2, 2] && cl[..5][..4][..3][..2][..1] == [2] && cl[..5][..4][..3][..2][..1][..0] == [];
    forall c | 0 <= c < Clusters
      ensures MemberCount(offices, cl, c) == [0, 2, 4][c] && MemberSum(offices, cl, c) == [0.0, 2.2, 24.8][c]
    {
      assert MemberCount(offices, [2], c) == [0, 0, 1][c] && MemberSum(offices, [2], c) == [0.0, 0.0, 2.4][c];
      assert MemberCount(offices, [2, 2], c) == [0, 0, 2][c] && MemberSum(offices, [2, 2], c) == [0.0, 0.0, 4.8][c];
      assert MemberCount(offices, [2, 2, 2], c) == [0, 0, 3][c] && MemberSum(offices, [2, 2, 2], c) == [0.0, 0.0, 14.8][c];
      assert MemberCount(offices, [2, 2, 2, 2], c) == [0, 0, 4][c] && MemberSum(offices, [2, 2, 2, 2], c) == [0.0, 0.0, 24.8][c];
      assert MemberCount(offices, [2, 2, 2, 2, 1], c) == [0, 1, 4][c] && MemberSum(offices, [2, 2, 2, 2, 1], c) == [0.0, 1.1, 24.8][c];
    }
  }

  /**
   * Two ranks and the consumptions [2.4, 2.4, 10, 10, 1.1, 1.1], from the
   * zeroed array. The first round gives [2, 2, 2, 2, 1, 1] and the
   * centroids [0.5, 1.1, 6.2]. From then on the offices at 2.4 are nearer
   * cluster 1, each owning rank moves its office there and counts a
   * change, and MPI_MAX restores cluster 2: the array and the centroids
   * never move again, every round reports changes, and the program stops
   * after ten rounds with two offices outside their nearest cluster.
   * Merging by owner instead moves them.
   */
  lemma ClusteringAsWrittenStrandsOffices()
    ensures var offices := Offices([2.4, 2.4, 10.0, 10.0, 1.1, 1.1]);
      && MergedRound([0, 0, 0, 0, 0, 0], Best(offices, InitialCentroids), 2) == [2, 2, 2, 2, 1, 1]
      && Recomputed(offices, [2, 2, 2, 2, 1, 1], InitialCentroids) == [0.5, 1.1, 6.2]
      && Best(offices, [0.5, 1.1, 6.2]) == [1, 1, 2, 2, 1, 1] != [2, 2, 2, 2, 1, 1]
      && MergedRound([2, 2, 2, 2, 1, 1], Best(offices, [0.5, 1.1, 6.2]), 2) == [2, 2, 2, 2, 1, 1]
      && Recomputed(offices, [2, 2, 2, 2, 1, 1], [0.5, 1.1, 6.2]) == [0.5, 1.1, 6.2]
      && MergedRound([2, 2, 2, 2, 1, 1], Best(offices, [0.5, 1.1, 6.2]), 1) == [1, 1, 2, 2, 1, 1]
  {
    var offices := Offices([2.4, 2.4, 10.0, 10.0, 1.1, 1.1]);
    assert Best(offices, InitialCentroids) == [2, 2, 2, 2, 1, 1];
    FirstRoundMembers(offices);
    assert Best(offices, [0.5, 1.1, 6.2]) == [1, 1, 2, 2, 1, 1];
  }

  /**
   * Two ranks and the consumptions [2.4, 0.1], from the zeroed array. In
   * the first round rank 0 moves office 0 to cluster 2 and counts one
   * change in its copy, while rank 1 finds office 1 already in cluster 0
   * and counts none (the rounds of AssignClusters). Each rank tests only
   * its own count, so rank 1 leaves the loop while rank 0 goes on to the
   * next MPI_Allreduce; the summed count of ReduceCopies is positive.
   */
  lemma LocalCountsDisagree()
    ensures Nearest(2.4, InitialCentroids) == 2 && Nearest(0.1, InitialCentroids) == 0
    ensures |Changed([0, 0], [2, 0], 2)| == 1 && |Changed([0, 0], [0, 0], 2)| == 0
  {
    assert Scan(2.4, InitialCentroids, 3) == (0.6, 2) by {
      assert Scan(2.4, InitialCentroids, 2) == (0.9, 1);
    }
    assert Scan(0.1, InitialCentroids, 3) == (0.4, 0) by {
      assert Scan(0.1, InitialCentroids, 2) == (0.4, 0);
    }
    assert Changed([0, 0], [2, 0], 2) == {0};
    assert Changed([0, 0], [0, 0], 2) == {};
  }
}
