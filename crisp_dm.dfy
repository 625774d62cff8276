/**
 * The rule-based part of the browser's CRISP-DM analytics,
 * resources/assets/crisp-dm-analytics.js: the anomaly rules and the
 * bounded anomaly history, the efficiency score and grade, the
 * recommendation thresholds and icons, and the round-robin "k-means".
 * The offices arrive as the entries of an object, in enumeration order.
 */
module CrispDm {
  import opened Base

  /** The features of one office that the rules read. */
  datatype Features = Features(corriente: real, consumo: real, tempMax: real, tiempoActivo: real)

  datatype Anomalia = Anomalia(oficina: string, tipo: string, severidad: string, timestamp: int, detalles: Option<string>)

  datatype Recomendacion = Recomendacion(oficina: string, tipo: string, prioridad: string)

  const ConsumoCero := "CONSUMO_CERO"
  const Sobrecarga := "SOBRECARGA"
  const AnomaliaEstadistica := "ANOMALIA_ESTADISTICA"
  const AltaCorriente := "ALTA_CORRIENTE"
  const TemperaturaElevada := "TEMPERATURA_ELEVADA"
  const BajaEficiencia := "BAJA_EFICIENCIA"

  /** The anomaly history keeps this many entries. */
  const MaxHistorial: nat := 50

  /** Ideal consumption, kWh per hour, of the efficiency score. */
  const ConsumoIdeal: real := 2.5

  // ---------------------------------------------------------------------
  // Anomalies
  // ---------------------------------------------------------------------

  predicate EsConsumoCero(f: Features) { f.consumo == 0.0 && f.tiempoActivo > 0.0 }
  predicate EsSobrecarga(f: Features) { f.corriente > 20.0 }

  /**
   * The anomalies of one office, in rule order. `hallazgo` is what the
   * statistical detector returned: None when there is no trained detector
   * or its answer is falsy.
   */
  function AnomaliasDe(oficina: string, f: Features, hallazgo: Option<string>, ahora: int): (r: seq<Anomalia>)
    ensures |r| <= 3
    ensures forall a | a in r :: a.oficina == oficina && a.timestamp == ahora
    ensures (exists a | a in r :: a.tipo == ConsumoCero) <==> EsConsumoCero(f)
    ensures (exists a | a in r :: a.tipo == Sobrecarga) <==> EsSobrecarga(f)
    ensures (exists a | a in r :: a.tipo == AnomaliaEstadistica) <==> hallazgo.Some?
    ensures forall a | a in r && a.tipo == AnomaliaEstadistica :: a.detalles == hallazgo
  {
    (if EsConsumoCero(f) then [Anomalia(oficina, ConsumoCero, "ALTA", ahora, None)] else [])
    + (if EsSobrecarga(f) then [Anomalia(oficina, Sobrecarga, "CRITICA", ahora, None)] else [])
    + (if hallazgo.Some? then [Anomalia(oficina, AnomaliaEstadistica, "MEDIA", ahora, hallazgo)] else [])
  }

  /** The anomalies of all offices, office by office. */
  function Detectadas(entradas: seq<(string, Features)>, hallazgos: seq<Option<string>>, ahora: int): seq<Anomalia>
    requires |hallazgos| == |entradas|
  {
    if entradas == [] then []
    else
      var n := |entradas| - 1;
      Detectadas(entradas[..n], hallazgos[..n], ahora) + AnomaliasDe(entradas[n].0, entradas[n].1, hallazgos[n], ahora)
  }

  /**
   * An anomaly is reported for an office exactly when one of its entries
   * meets the rule: zero consumption with presence, or more than 20 A.
   */
  lemma {:induction false} AnomalyRulesAreExact(entradas: seq<(string, Features)>, hallazgos: seq<Option<string>>, ahora: int, oficina: string)
    requires |hallazgos| == |entradas|
    ensures (exists a | a in Detectadas(entradas, hallazgos, ahora) :: a.oficina == oficina && a.tipo == ConsumoCero)
            <==> exists j | 0 <= j < |entradas| :: entradas[j].0 == oficina && EsConsumoCero(entradas[j].1)
    ensures (exists a | a in Detectadas(entradas, hallazgos, ahora) :: a.oficina == oficina && a.tipo == Sobrecarga)
            <==> exists j | 0 <= j < |entradas| :: entradas[j].0 == oficina && EsSobrecarga(entradas[j].1)
  {
    if entradas != [] {
      var n := |entradas| - 1;
      AnomalyRulesAreExact(entradas[..n], hallazgos[..n], ahora, oficina);
      var head := Detectadas(entradas[..n], hallazgos[..n], ahora);
      var last := AnomaliasDe(entradas[n].0, entradas[n].1, hallazgos[n], ahora);
      assert Detectadas(entradas, hallazgos, ahora) == head + last;
      assert forall j | 0 <= j < n :: entradas[..n][j] == entradas[j];
      if exists j | 0 <= j < |entradas| :: entradas[j].0 == oficina && EsConsumoCero(entradas[j].1) {
        var j :| 0 <= j < |entradas| && entradas[j].0 == oficina && EsConsumoCero(entradas[j].1);
        if j == n {
          var a :| a in last && a.tipo == ConsumoCero;
          assert a in head + last;
        }
      }
      if exists j | 0 <= j < |entradas| :: entradas[j].0 == oficina && EsSobrecarga(entradas[j].1) {
        var j :| 0 <= j < |entradas| && entradas[j].0 == oficina && EsSobrecarga(entradas[j].1);
        if j == n {
          var a :| a in last && a.tipo == Sobrecarga;
          assert a in head + last;
        }
      }
    }
  }

  /** `slice(-50)`: the last fifty entries, or all of them when there are fewer. */
  function Ultimas(s: seq<Anomalia>): (h: seq<Anomalia>)
    ensures |h| == if |s| <= MaxHistorial then |s| else MaxHistorial
    ensures h == s[|s| - |h|..]
  {
    if |s| > MaxHistorial then s[|s| - MaxHistorial..] else s
  }

  /** The history never holds more than fifty entries and, when a batch has at most fifty, ends with the whole batch. */
  lemma HistoryKeepsTheNewest(viejas: seq<Anomalia>, nuevas: seq<Anomalia>)
    requires |nuevas| <= MaxHistorial
    ensures var h := Ultimas(viejas + nuevas);
      |h| <= MaxHistorial && |nuevas| <= |h| && h[|h| - |nuevas|..] == nuevas
  {
    var s := viejas + nuevas;
    var h := Ultimas(s);
    assert h[|h| - |nuevas|..] == s[|s| - |nuevas|..];
    assert s[|s| - |nuevas|..] == nuevas;
  }

  // ---------------------------------------------------------------------
  // Efficiency
  // ---------------------------------------------------------------------

  function RealMax(a: real, b: real): real { if a >= b then a else b }

  /** calculateEfficiencyScores' score: 100 at the ideal consumption, 40 points less per extra kWh, never below 0. */
  function Score(consumo: real): (s: real)
    ensures s >= 0.0
    ensures s == 0.0 <==> consumo >= 2.0 * ConsumoIdeal
    ensures s > 100.0 <==> consumo < ConsumoIdeal
  {
    RealMax(0.0, 100.0 - ((consumo - ConsumoIdeal) / ConsumoIdeal) * 100.0)
  }

  /** calculateEfficiencyScores' improvement: the consumption above the ideal. */
  function Mejora(consumo: real): (m: real)
    ensures m >= 0.0 && (m > 0.0 <==> consumo > ConsumoIdeal)
  {
    RealMax(0.0, consumo - ConsumoIdeal)
  }

  /** The grade of a ratio of consumption to ideal. */
  function Grade(ratio: real): (g: string)
    ensures g == "A+" <==> ratio <= 0.8
    ensures g == "A" <==> 0.8 < ratio <= 1.0
    ensures g == "B" <==> 1.0 < ratio <= 1.2
    ensures g == "C" <==> 1.2 < ratio <= 1.5
    ensures g == "D" <==> ratio > 1.5
  {
    if ratio <= 0.8 then "A+" else if ratio <= 1.0 then "A" else if ratio <= 1.2 then "B" else if ratio <= 1.5 then "C" else "D"
  }

  /**
   * getEfficiencyGrade: the grade of `consumo / ideal`. A zero ideal makes
   * the ratio +Infinity (D), -Infinity (A+) or NaN, which no comparison
   * accepts (D).
   */
  function EfficiencyGrade(consumo: real, ideal: real): (g: string)
    ensures ideal != 0.0 ==> g == Grade(consumo / ideal)
    ensures ideal == 0.0 ==> (g == "A+" <==> consumo < 0.0) && (g == "D" <==> consumo >= 0.0)
  {
    if ideal != 0.0 then Grade(consumo / ideal)
    else if consumo < 0.0 then "A+"
    else "D"
  }

  function GradeRank(g: string): int
  {
    if g == "A+" then 4 else if g == "A" then 3 else if g == "B" then 2 else if g == "C" then 1 else 0
  }

  /** A larger ratio never earns a better grade. */
  lemma GradeIsMonotone(r1: real, r2: real)
    requires r1 <= r2
    ensures GradeRank(Grade(r1)) >= GradeRank(Grade(r2))
  {
  }

  /** Against the ideal of 2.5 kWh, an office earns A+ up to 2 kWh and D above 3.75 kWh. */
  lemma GradeAtTheIdeal(consumo: real)
    ensures EfficiencyGrade(consumo, ConsumoIdeal) == "A+" <==> consumo <= 2.0
    ensures EfficiencyGrade(consumo, ConsumoIdeal) == "D" <==> consumo > 3.75
  {
    assert consumo / ConsumoIdeal <= 0.8 <==> consumo <= 2.0;
    assert consumo / ConsumoIdeal > 1.5 <==> consumo > 3.75;
  }

  // ---------------------------------------------------------------------
  // Recommendations
  // ---------------------------------------------------------------------

  /** The recommendations for one office, in the order the thresholds are checked. */
  function RecomendacionesDe(oficina: string, f: Features): (r: seq<Recomendacion>)
    ensures forall x | x in r :: x.oficina == oficina
    ensures (exists x | x in r :: x.tipo == AltaCorriente) <==> f.corriente > 15.0
    ensures (exists x | x in r :: x.tipo == TemperaturaElevada) <==> f.tempMax > 26.0
    ensures (exists x | x in r :: x.tipo == BajaEficiencia) <==> Score(f.consumo) < 70.0
    ensures f.corriente > 15.0 ==> r[0].tipo == AltaCorriente
    ensures f.corriente > 15.0 && f.tempMax > 26.0 ==> r[1].tipo == TemperaturaElevada
  {
    (if f.corriente > 15.0 then [Recomendacion(oficina, AltaCorriente, "ALTA")] else [])
    + (if f.tempMax > 26.0 then [Recomendacion(oficina, TemperaturaElevada, "MEDIA")] else [])
    + (if Score(f.consumo) < 70.0 then [Recomendacion(oficina, BajaEficiencia, "MEDIA")] else [])
  }

  /** The low-efficiency rule fires exactly above 3.25 kWh. */
  lemma LowEfficiencyThreshold(f: Features)
    ensures Score(f.consumo) < 70.0 <==> f.consumo > 3.25
  {
    assert 100.0 - ((f.consumo - ConsumoIdeal) / ConsumoIdeal) * 100.0 == 200.0 - 40.0 * f.consumo;
  }

  /** generateRecommendations: office by office. */
  function Recomendaciones(entradas: seq<(string, Features)>): seq<Recomendacion>
  {
    if entradas == [] then []
    else
      var n := |entradas| - 1;
      Recomendaciones(entradas[..n]) + RecomendacionesDe(entradas[n].0, entradas[n].1)
  }

  /** Every recommendation names an office of the input. */
  lemma {:induction false} RecommendationsNameInputOffices(entradas: seq<(string, Features)>)
    ensures forall x | x in Recomendaciones(entradas) :: exists j | 0 <= j < |entradas| :: entradas[j].0 == x.oficina
  {
    if entradas != [] {
      var n := |entradas| - 1;
      RecommendationsNameInputOffices(entradas[..n]);
      forall x | x in Recomendaciones(entradas)
        ensures exists j | 0 <= j < |entradas| :: entradas[j].0 == x.oficina
      {
        if x in Recomendaciones(entradas[..n]) {
          var j :| 0 <= j < n && entradas[..n][j].0 == x.oficina;
          assert entradas[j].0 == x.oficina;
        } else {
          assert entradas[n].0 == x.oficina;
        }
      }
    }
  }

  const Iconos: map<string, string> := map[
    AltaCorriente := "bolt",
    TemperaturaElevada := "thermometer-full",
    BajaEficiencia := "tachometer-alt",
    ConsumoCero := "exclamation-triangle",
    Sobrecarga := "fire"]

  /** getRecommendationIcon: the mapped icon, or "lightbulb". */
  function Icono(tipo: string): (i: string)
    ensures tipo in Iconos ==> i == Iconos[tipo]
    ensures tipo !in Iconos ==> i == "lightbulb"
  {
    if tipo in Iconos then Iconos[tipo] else "lightbulb"
  }

  /** An example over the fixed table: every recommendation type has an icon of its own; the statistical anomaly gets the default. */
  lemma IconsOfTheKnownTypes()
    ensures Icono(AltaCorriente) == "bolt" && Icono(TemperaturaElevada) == "thermometer-full"
    ensures Icono(BajaEficiencia) == "tachometer-alt" && Icono(AnomaliaEstadistica) == "lightbulb"
  {
  }

  // ---------------------------------------------------------------------
  // Round-robin clustering
  // ---------------------------------------------------------------------

  /** The elements kMeansClustering puts in cluster c: those at the indices i with i % k == c, in order. */
  function Cluster<T>(features: seq<T>, k: nat, c: nat): seq<T>
    requires k > 0
  {
    if features == [] then []
    else
      var n := |features| - 1;
      Cluster(features[..n], k, c) + (if n % k == c then [features[n]] else [])
  }

  /** The first |n| % k clusters hold one element more than the others: sizes differ by at most one. */
  lemma {:induction false} ClusterSizes<T>(features: seq<T>, k: nat, c: nat)
    requires k > 0 && c < k
    ensures |Cluster(features, k, c)| == |features| / k + (if c < |features| % k then 1 else 0)
  {
    if features != [] {
      var n := |features| - 1;
      ClusterSizes(features[..n], k, c);
      DivModStep(n, k);
    }
  }

  /** Element i is element i / k of cluster i % k: nothing is lost and the order is kept. */
  lemma {:induction false} ClusterPositions<T>(features: seq<T>, k: nat, i: nat)
    requires k > 0 && i < |features|
    ensures i / k < |Cluster(features, k, i % k)| && Cluster(features, k, i % k)[i / k] == features[i]
  {
    var n := |features| - 1;
    if i == n {
      ClusterSizes(features[..n], k, n % k);
    } else {
      ClusterPositions(features[..n], k, i);
    }
  }

  /** Two clusters differ in size by at most one. */
  lemma ClustersAreBalanced<T>(features: seq<T>, k: nat, c1: nat, c2: nat)
    requires k > 0 && c1 < k && c2 < k
    ensures -1 <= |Cluster(features, k, c1)| - |Cluster(features, k, c2)| <= 1
  {
    ClusterSizes(features, k, c1);
    ClusterSizes(features, k, c2);
  }

  /**
   * kMeansClustering: k empty clusters, then each element pushed onto
   * cluster index % k. With k == 0 the first push fails (None).
   */
  method KMeansClustering<T>(features: seq<T>, k: nat) returns (r: Option<seq<seq<T>>>)
    ensures r.None? <==> k == 0 && |features| > 0
    ensures r.Some? ==> |r.value| == k && forall c | 0 <= c < k :: r.value[c] == Cluster(features, k, c)
  {
    var clusters: seq<seq<T>> := seq(k, _ => []);
    if k == 0 {
      if |features| > 0 {
        return None;
      }
      return Some(clusters);
    }
    for i := 0 to |features|
      invariant |clusters| == k
      invariant forall c | 0 <= c < k :: clusters[c] == Cluster(features[..i], k, c)
    {
      assert features[..i + 1][..i] == features[..i];
      var c := i % k;
      clusters := clusters[c := clusters[c] + [features[i]]];
    }
    assert features[..|features|] == features;
    r := Some(clusters);
  }

  /** The analytics object's anomaly history. */
  class Analytics {
    var anomalies: seq<Anomalia>

    constructor ()
      ensures anomalies == []
    {
      anomalies := [];
    }

    /**
     * detectAnomalies: the rules office by office; the history becomes
     * the last fifty of history and batch, and only the batch is returned.
     * One clock reading `ahora` stands for the Date.now() that each push
     * of the source calls.
     */
    method DetectAnomalies(entradas: seq<(string, Features)>, hallazgos: seq<Option<string>>, ahora: int)
      returns (nuevas: seq<Anomalia>)
      requires |hallazgos| == |entradas|
      modifies this
      ensures nuevas == Detectadas(entradas, hallazgos, ahora)
      ensures anomalies == Ultimas(old(anomalies) + nuevas)
    {
      nuevas := [];
      for i := 0 to |entradas|
        invariant nuevas == Detectadas(entradas[..i], hallazgos[..i], ahora)
      {
        assert entradas[..i + 1][..i] == entradas[..i];
        assert hallazgos[..i + 1][..i] == hallazgos[..i];
        nuevas := nuevas + AnomaliasDe(entradas[i].0, entradas[i].1, hallazgos[i], ahora);
      }
      assert entradas[..|entradas|] == entradas;
      assert hallazgos[..|hallazgos|] == hallazgos;
      anomalies := Ultimas(anomalies + nuevas);
    }
  }
}
