/**
 * The per-office state machine shared by the three edge subscribers
 * (mqtt/subscriber/main.go, monitoreo_consumo.go and sensor_edge.go). Each
 * sensor reading updates the office's accumulators and latches, and may
 * raise alerts about lights, air conditioning, anomalous consumption,
 * power outages, a silent sensor and high current; once a minute the
 * accumulated window is turned into a summary.
 */
module EdgeAlerts {
  import opened Base
  import Records

  /** One sensor reading as published on the office's topic. */
  datatype Reading = Reading(office: string, timestamp: int, presence: bool, current: real, temperature: real)

  /** The alerts, in the order the detector checks them; Index is the position in the notice-type list. */
  datatype Alert =
    | LightsOffByState
    | LightsOn
    | LightsOffByAbsence
    | AcOffByState
    | AcOn
    | AcOffByConditions
    | AnomalousConsumption(amps: real)
    | PowerOutage(seconds: int)
    | SensorSilent(seconds: int)
    | HighCurrent(amps: real)

  function Index(a: Alert): (k: nat)
    ensures k < 10
  {
    match a
    case LightsOffByState => 0
    case LightsOn => 1
    case LightsOffByAbsence => 2
    case AcOffByState => 3
    case AcOn => 4
    case AcOffByConditions => 5
    case AnomalousConsumption(_) => 6
    case PowerOutage(_) => 7
    case SensorSilent(_) => 8
    case HighCurrent(_) => 9
  }

  /** The latches an office keeps between readings. */
  datatype Latches = Latches(light: bool, ac: bool, noCurrentSince: Option<int>, sensorDown: bool, highCurrent: bool)

  datatype Thresholds = Thresholds(acTemperature: real, current: real)

  /** Amps drawn without presence that count as anomalous. */
  const AnomalousAmps: real := 10.0
  /** Seconds of zero current before an outage is reported. */
  const OutageSeconds: int := 60
  /** Seconds without data before the sensor is reported silent. */
  const SilenceSeconds: int := 60
  /** Seconds each reading stands for. */
  const ReadingSeconds: int := 10
  /** Seconds between summaries. */
  const SummarySeconds: int := 60

  /** A device switch as the detector reads it: a missing office or device reads as off. */
  function Switch(devices: map<string, map<string, bool>>, office: string, device: string): (on: bool)
    ensures on <==> office in devices && device in devices[office] && devices[office][device]
  {
    if office in devices && device in devices[office] then devices[office][device] else false
  }

  // ----- the components of one step -----

  datatype SwitchChange = OffByState | On | OffByCondition

  /**
   * The lights and the air conditioning follow the same rule: while the
   * condition holds, the remembered state follows the device switch
   * (reporting each change); when it stops holding, a running device is
   * reported off.
   */
  function SwitchStep(cond: bool, wanted: bool, on: bool): (r: (bool, Option<SwitchChange>))
    ensures r.0 == (cond && wanted)
    ensures r.1.Some? <==> r.0 != on
    ensures r.1 == Some(On) <==> !on && cond && wanted
    ensures r.1 == Some(OffByCondition) <==> on && !cond
    ensures r.1 == Some(OffByState) <==> on && cond && !wanted
  {
    if cond then
      if !wanted && on then (false, Some(OffByState))
      else if wanted && !on then (true, Some(On))
      else (on, None)
    else if on then (false, Some(OffByCondition))
    else (on, None)
  }

  /**
   * A latch raised the first time its condition holds and cleared when
   * the condition stops holding: one alert per excursion.
   */
  function LatchStep(cond: bool, flag: bool): (r: (bool, bool))
    ensures r.0 == cond
    ensures r.1 <==> cond && !flag
  {
    if cond && !flag then (true, true)
    else if !cond && flag then (false, false)
    else (flag, false)
  }

  /**
   * The outage timer: the first zero-current reading starts it; a later
   * one more than a minute after the start reports the outage and clears
   * it; any reading with current clears it.
   */
  function OutageStep(current: real, ts: int, since: Option<int>): (r: (Option<int>, Option<int>))
    ensures r.1.Some? <==> current <= 0.0 && since.Some? && ts - since.value > OutageSeconds
    ensures r.1.Some? ==> r.1.value == ts - since.value > OutageSeconds && r.0.None?
    ensures current > 0.0 ==> r.0.None?
    ensures current <= 0.0 && since.None? ==> r.0 == Some(ts)
  {
    if current <= 0.0 then
      if since.None? then (Some(ts), None)
      else if ts - since.value > OutageSeconds then (None, Some(ts - since.value))
      else (since, None)
    else (None, None)
  }

  /** The alerts of a list all have an index in [lo, hi). */
  ghost predicate InBand(a: seq<Alert>, lo: nat, hi: nat)
  {
    forall k | 0 <= k < |a| :: lo <= Index(a[k]) < hi
  }

  /** The alerts of a list come in strictly increasing check order. */
  ghost predicate InCheckOrder(a: seq<Alert>)
  {
    forall i, j | 0 <= i < j < |a| :: Index(a[i]) < Index(a[j])
  }

  /** At most one alert, with an index in [lo, hi). */
  predicate AtMostOneIn(a: seq<Alert>, lo: nat, hi: nat)
  {
    |a| <= 1 && (|a| == 1 ==> lo <= Index(a[0]) < hi)
  }

  /** The air conditioning should run when someone is present and it is hotter than the threshold. */
  predicate AcWanted(r: Reading, th: Thresholds)
  {
    r.presence && r.temperature > th.acTemperature
  }

  /** The lights check: alerts 0, 1 and 2. */
  function LightPart(light: bool, r: Reading, lightsOn: bool): (a: seq<Alert>)
    ensures AtMostOneIn(a, 0, 3)
    ensures |a| == 1 <==> SwitchStep(r.presence, lightsOn, light).0 != light
  {
    match SwitchStep(r.presence, lightsOn, light).1
    case None => []
    case Some(OffByState) => [LightsOffByState]
    case Some(On) => [LightsOn]
    case Some(OffByCondition) => [LightsOffByAbsence]
  }

  /** The air-conditioning check: alerts 3, 4 and 5. */
  function AcPart(ac: bool, r: Reading, acOn: bool, th: Thresholds): (a: seq<Alert>)
    ensures AtMostOneIn(a, 3, 6)
    ensures |a| == 1 <==> SwitchStep(AcWanted(r, th), acOn, ac).0 != ac
  {
    match SwitchStep(AcWanted(r, th), acOn, ac).1
    case None => []
    case Some(OffByState) => [AcOffByState]
    case Some(On) => [AcOn]
    case Some(OffByCondition) => [AcOffByConditions]
  }

  /** Current drawn in an empty office: alert 6. */
  function AnomalyPart(r: Reading): (a: seq<Alert>)
    ensures AtMostOneIn(a, 6, 7)
    ensures AnomalousConsumption(r.current) in a <==> !r.presence && r.current > AnomalousAmps
  {
    if !r.presence && r.current > AnomalousAmps then [AnomalousConsumption(r.current)] else []
  }

  /** The outage timer expiring: alert 7. */
  function OutagePart(since: Option<int>, r: Reading): (a: seq<Alert>)
    ensures AtMostOneIn(a, 7, 8)
    ensures |a| == 1 <==> OutageStep(r.current, r.timestamp, since).1.Some?
  {
    var outage := OutageStep(r.current, r.timestamp, since).1;
    if outage.Some? then [PowerOutage(outage.value)] else []
  }

  /** The sensor falling silent: alert 8. */
  function SilencePart(down: bool, silence: int): (a: seq<Alert>)
    ensures AtMostOneIn(a, 8, 9)
    ensures SensorSilent(silence) in a <==> silence > SilenceSeconds && !down
  {
    if LatchStep(silence > SilenceSeconds, down).1 then [SensorSilent(silence)] else []
  }

  /** The current rising above the threshold: alert 9. */
  function CurrentPart(high: bool, r: Reading, th: Thresholds): (a: seq<Alert>)
    ensures AtMostOneIn(a, 9, 10)
    ensures HighCurrent(r.current) in a <==> r.current > th.current && !high
  {
    if LatchStep(r.current > th.current, high).1 then [HighCurrent(r.current)] else []
  }

  /** The latches after one step. */
  function NextLatches(l: Latches, r: Reading, lightsOn: bool, acOn: bool, th: Thresholds, silence: int): (l': Latches)
    ensures l'.light == (r.presence && lightsOn)
    ensures l'.ac == (AcWanted(r, th) && acOn)
    ensures l'.sensorDown == (silence > SilenceSeconds)
    ensures l'.highCurrent == (r.current > th.current)
  {
    Latches(
      SwitchStep(r.presence, lightsOn, l.light).0,
      SwitchStep(AcWanted(r, th), acOn, l.ac).0,
      OutageStep(r.current, r.timestamp, l.noCurrentSince).0,
      LatchStep(silence > SilenceSeconds, l.sensorDown).0,
      LatchStep(r.current > th.current, l.highCurrent).0)
  }

  /** The alerts of the lights and air-conditioning checks. */
  function SwitchAlerts(l: Latches, r: Reading, lightsOn: bool, acOn: bool, th: Thresholds): seq<Alert>
  {
    LightPart(l.light, r, lightsOn) + AcPart(l.ac, r, acOn, th)
  }

  /** The alerts of the consumption, outage, silence and current checks. */
  function SupplyAlerts(l: Latches, r: Reading, th: Thresholds, silence: int): seq<Alert>
  {
    AnomalyPart(r) + (OutagePart(l.noCurrentSince, r) + (SilencePart(l.sensorDown, silence) + CurrentPart(l.highCurrent, r, th)))
  }

  /**
   * The alerts one detector step raises, in check order. `silence` is the
   * clock minus the office's last reading time.
   */
  function StepAlerts(l: Latches, r: Reading, lightsOn: bool, acOn: bool, th: Thresholds, silence: int): seq<Alert>
  {
    SwitchAlerts(l, r, lightsOn, acOn, th) + SupplyAlerts(l, r, th, silence)
  }

  lemma SingleInBand(a: seq<Alert>, lo: nat, hi: nat)
    requires AtMostOneIn(a, lo, hi)
    ensures InCheckOrder(a) && InBand(a, lo, hi)
  {
  }

  lemma OrderedConcat(a: seq<Alert>, b: seq<Alert>, lo: nat, mid: nat, hi: nat)
    requires lo <= mid <= hi
    requires InCheckOrder(a) && InCheckOrder(b) && InBand(a, lo, mid) && InBand(b, mid, hi)
    ensures InCheckOrder(a + b) && InBand(a + b, lo, hi)
  {
    var c := a + b;
    forall i, j | 0 <= i < j < |c| ensures Index(c[i]) < Index(c[j]) {
      if j < |a| {
        assert c[i] == a[i] && c[j] == a[j];
      } else if i >= |a| {
        assert c[i] == b[i - |a|] && c[j] == b[j - |a|];
      } else {
        assert c[i] == a[i] && c[j] == b[j - |a|];
      }
    }
    forall k | 0 <= k < |c| ensures lo <= Index(c[k]) < hi {
      if k < |a| {
        assert c[k] == a[k];
      } else {
        assert c[k] == b[k - |a|];
      }
    }
  }

  /** The lights and air-conditioning alerts are ordered and come first. */
  lemma SwitchAlertsBand(l: Latches, r: Reading, lightsOn: bool, acOn: bool, th: Thresholds)
    ensures InCheckOrder(SwitchAlerts(l, r, lightsOn, acOn, th)) && InBand(SwitchAlerts(l, r, lightsOn, acOn, th), 0, 6)
    ensures |SwitchAlerts(l, r, lightsOn, acOn, th)| <= 2
  {
    var p0, p1 := LightPart(l.light, r, lightsOn), AcPart(l.ac, r, acOn, th);
    SingleInBand(p0, 0, 3); SingleInBand(p1, 3, 6);
    OrderedConcat(p0, p1, 0, 3, 6);
  }

  /** The supply alerts are ordered and come after the switch alerts. */
  lemma SupplyAlertsBand(l: Latches, r: Reading, th: Thresholds, silence: int)
    ensures InCheckOrder(SupplyAlerts(l, r, th, silence)) && InBand(SupplyAlerts(l, r, th, silence), 6, 10)
    ensures |SupplyAlerts(l, r, th, silence)| <= 4
  {
    var p2, p3 := AnomalyPart(r), OutagePart(l.noCurrentSince, r);
    var p4, p5 := SilencePart(l.sensorDown, silence), CurrentPart(l.highCurrent, r, th);
    SingleInBand(p2, 6, 7); SingleInBand(p3, 7, 8); SingleInBand(p4, 8, 9); SingleInBand(p5, 9, 10);
    OrderedConcat(p4, p5, 8, 9, 10);
    OrderedConcat(p3, p4 + p5, 7, 8, 10);
    OrderedConcat(p2, p3 + (p4 + p5), 6, 7, 10);
  }

  /** A step raises at most one alert per check, in check order. */
  lemma StepAlertsInCheckOrder(l: Latches, r: Reading, lightsOn: bool, acOn: bool, th: Thresholds, silence: int)
    ensures InCheckOrder(StepAlerts(l, r, lightsOn, acOn, th, silence))
    ensures |StepAlerts(l, r, lightsOn, acOn, th, silence)| <= 6
  {
    SwitchAlertsBand(l, r, lightsOn, acOn, th);
    SupplyAlertsBand(l, r, th, silence);
    OrderedConcat(SwitchAlerts(l, r, lightsOn, acOn, th), SupplyAlerts(l, r, th, silence), 0, 6, 10);
  }

  /** A list below a band followed by a list above it has nothing in the band. */
  lemma OutsideBand(a: seq<Alert>, b: seq<Alert>, lo: nat, hi: nat)
    requires InBand(a, 0, lo) && InBand(b, hi, 10)
    ensures forall k | 0 <= k < |a + b| :: !(lo <= Index((a + b)[k]) < hi)
  {
    forall k | 0 <= k < |a + b| ensures !(lo <= Index((a + b)[k]) < hi) {
      if k < |a| {
        assert (a + b)[k] == a[k];
      } else {
        assert (a + b)[k] == b[k - |a|];
      }
    }
  }

  /**
   * In a list made of alerts below a band, at most one alert in the band
   * and alerts above it, some alert is in the band exactly when the middle
   * part is not empty.
   */
  lemma BandPresence(a: seq<Alert>, p: seq<Alert>, rest: seq<Alert>, lo: nat, hi: nat)
    requires InBand(a, 0, lo) && AtMostOneIn(p, lo, hi) && InBand(rest, hi, 10)
    ensures (exists k | 0 <= k < |(a + p) + rest| :: lo <= Index(((a + p) + rest)[k]) < hi) <==> |p| == 1
  {
    var c := (a + p) + rest;
    if |p| == 1 {
      assert c[|a|] == p[0];
    } else {
      assert a + p == a;
      OutsideBand(a, rest, lo, hi);
    }
  }

  /** An alert outside a part's band is not in that part. */
  lemma NotInPart(p: seq<Alert>, lo: nat, hi: nat, x: Alert)
    requires AtMostOneIn(p, lo, hi) && !(lo <= Index(x) < hi)
    ensures x !in p
  {
  }

  /** An anomalous-consumption alert is raised exactly when current is drawn in an empty office. */
  lemma StepRaisesAnomaly(l: Latches, r: Reading, lightsOn: bool, acOn: bool, th: Thresholds, silence: int)
    ensures AnomalousConsumption(r.current) in StepAlerts(l, r, lightsOn, acOn, th, silence)
            <==> !r.presence && r.current > AnomalousAmps
  {
    var x := AnomalousConsumption(r.current);
    NotInPart(LightPart(l.light, r, lightsOn), 0, 3, x);
    NotInPart(AcPart(l.ac, r, acOn, th), 3, 6, x);
    NotInPart(OutagePart(l.noCurrentSince, r), 7, 8, x);
    NotInPart(SilencePart(l.sensorDown, silence), 8, 9, x);
    NotInPart(CurrentPart(l.highCurrent, r, th), 9, 10, x);
  }

  /** A silent-sensor alert is raised on the first step with more than a minute of silence. */
  lemma StepRaisesSilence(l: Latches, r: Reading, lightsOn: bool, acOn: bool, th: Thresholds, silence: int)
    ensures SensorSilent(silence) in StepAlerts(l, r, lightsOn, acOn, th, silence)
            <==> silence > SilenceSeconds && !l.sensorDown
  {
    var x := SensorSilent(silence);
    NotInPart(LightPart(l.light, r, lightsOn), 0, 3, x);
    NotInPart(AcPart(l.ac, r, acOn, th), 3, 6, x);
    NotInPart(AnomalyPart(r), 6, 7, x);
    NotInPart(OutagePart(l.noCurrentSince, r), 7, 8, x);
    NotInPart(CurrentPart(l.highCurrent, r, th), 9, 10, x);
  }

  /** A high-current alert is raised on the first step above the threshold. */
  lemma StepRaisesHighCurrent(l: Latches, r: Reading, lightsOn: bool, acOn: bool, th: Thresholds, silence: int)
    ensures HighCurrent(r.current) in StepAlerts(l, r, lightsOn, acOn, th, silence)
            <==> r.current > th.current && !l.highCurrent
  {
    var x := HighCurrent(r.current);
    NotInPart(LightPart(l.light, r, lightsOn), 0, 3, x);
    NotInPart(AcPart(l.ac, r, acOn, th), 3, 6, x);
    NotInPart(AnomalyPart(r), 6, 7, x);
    NotInPart(OutagePart(l.noCurrentSince, r), 7, 8, x);
    NotInPart(SilencePart(l.sensorDown, silence), 8, 9, x);
  }

  /** The first part decides whether the list has an alert below `hi`. */
  lemma FirstBandPresence(p: seq<Alert>, r1: seq<Alert>, r2: seq<Alert>, hi: nat)
    requires AtMostOneIn(p, 0, hi) && InBand(r1, hi, 10) && InBand(r2, hi, 10)
    ensures (exists k | 0 <= k < |(p + r1) + r2| :: Index(((p + r1) + r2)[k]) < hi) <==> |p| == 1
  {
    var c := (p + r1) + r2;
    if |p| == 1 {
      assert c[0] == p[0];
    } else {
      assert p + r1 == r1;
      forall k | 0 <= k < |c| ensures Index(c[k]) >= hi {
        if k < |r1| {
          assert c[k] == r1[k];
        } else {
          assert c[k] == r2[k - |r1|];
        }
      }
    }
  }

  /** A lights alert is raised exactly when the remembered light state changes. */
  lemma StepReportsLightChange(l: Latches, r: Reading, lightsOn: bool, acOn: bool, th: Thresholds, silence: int)
    ensures (exists k | 0 <= k < |StepAlerts(l, r, lightsOn, acOn, th, silence)| :: Index(StepAlerts(l, r, lightsOn, acOn, th, silence)[k]) < 3)
            <==> NextLatches(l, r, lightsOn, acOn, th, silence).light != l.light
  {
    var p0, p1 := LightPart(l.light, r, lightsOn), AcPart(l.ac, r, acOn, th);
    var su := SupplyAlerts(l, r, th, silence);
    SupplyAlertsBand(l, r, th, silence);
    SingleInBand(p1, 3, 6);
    FirstBandPresence(p0, p1, su, 3);
    assert StepAlerts(l, r, lightsOn, acOn, th, silence) == (p0 + p1) + su;
  }

  /** An air-conditioning alert is raised exactly when the remembered air-conditioning state changes. */
  lemma StepReportsAcChange(l: Latches, r: Reading, lightsOn: bool, acOn: bool, th: Thresholds, silence: int)
    ensures (exists k | 0 <= k < |StepAlerts(l, r, lightsOn, acOn, th, silence)| :: 3 <= Index(StepAlerts(l, r, lightsOn, acOn, th, silence)[k]) < 6)
            <==> NextLatches(l, r, lightsOn, acOn, th, silence).ac != l.ac
  {
    var p0, p1 := LightPart(l.light, r, lightsOn), AcPart(l.ac, r, acOn, th);
    var su := SupplyAlerts(l, r, th, silence);
    SupplyAlertsBand(l, r, th, silence);
    SingleInBand(p0, 0, 3);
    BandPresence(p0, p1, su, 3, 6);
    assert StepAlerts(l, r, lightsOn, acOn, th, silence) == (p0 + p1) + su;
  }

  // ----- a latch over a run of readings -----

  /** Whether a latch fires at each step of a run of conditions. */
  function LatchFires(conds: seq<bool>, flag: bool): (fires: seq<bool>)
    ensures |fires| == |conds|
  {
    if conds == [] then []
    else [LatchStep(conds[0], flag).1] + LatchFires(conds[1..], LatchStep(conds[0], flag).0)
  }

  /** A latch that starts raised fires only after its condition has been false. */
  lemma {:induction false} RaisedLatchNeedsReset(conds: seq<bool>, m: nat)
    requires m < |conds| && LatchFires(conds, true)[m]
    ensures exists k | 0 <= k < m :: !conds[k]
  {
    if m > 0 && conds[0] {
      RaisedLatchNeedsReset(conds[1..], m - 1);
      var k :| 0 <= k < m - 1 && !conds[1..][k];
      assert !conds[k + 1];
    }
  }

  /** Between two alerts of a latch its condition was false at least once: one alert per excursion. */
  lemma {:induction false} LatchFiresOncePerExcursion(conds: seq<bool>, flag: bool, i: nat, j: nat)
    requires i < j < |conds|
    requires LatchFires(conds, flag)[i] && LatchFires(conds, flag)[j]
    ensures exists k | i < k < j :: !conds[k]
  {
    var rest := conds[1..];
    var next := LatchStep(conds[0], flag).0;
    assert LatchFires(conds, flag)[j] == LatchFires(rest, next)[j - 1];
    if i == 0 {
      RaisedLatchNeedsReset(rest, j - 1);
      var k :| 0 <= k < j - 1 && !rest[k];
      assert !conds[k + 1];
    } else {
      assert LatchFires(conds, flag)[i] == LatchFires(rest, next)[i - 1];
      LatchFiresOncePerExcursion(rest, next, i - 1, j - 1);
      var k :| i - 1 < k < j - 1 && !rest[k];
      assert !conds[k + 1];
    }
  }

  // ----- summaries -----

  /** The mean of the window's currents, 0 for an empty window. */
  function Average(xs: seq<real>): real
  {
    if |xs| == 0 then 0.0 else Sum(xs) / (|xs| as real)
  }

  /** kWh of a window whose readings each stand for ten seconds at the given voltage. */
  function WindowKwh(currents: seq<real>, voltage: real): real
  {
    Average(currents) * voltage * (((|currents| * ReadingSeconds) as real) / 3600.0) / 1000.0
  }

  /** The window's energy is the sum of amps times volts times ten seconds, in kWh. */
  lemma WindowKwhIsEnergy(currents: seq<real>, voltage: real)
    ensures WindowKwh(currents, voltage) == Sum(currents) * voltage / 360000.0
  {
    if |currents| > 0 {
      var n := |currents| as real;
      var avg := Sum(currents) / n;
      assert avg * n == Sum(currents);
      calc {
        WindowKwh(currents, voltage);
        avg * voltage * ((n * 10.0) / 3600.0) / 1000.0;
        (avg * n) * voltage / 360000.0;
      }
    }
  }

  /** The running minimum of a scan that starts at `init`. */
  function Lowest(xs: seq<real>, init: real): (m: real)
    ensures m <= init && forall k | 0 <= k < |xs| :: m <= xs[k]
  {
    if xs == [] then init
    else
      var m0 := Lowest(xs[..|xs| - 1], init);
      assert forall k | 0 <= k < |xs| - 1 :: xs[..|xs| - 1][k] == xs[k];
      if xs[|xs| - 1] < m0 then xs[|xs| - 1] else m0
  }

  function Highest(xs: seq<real>, init: real): (m: real)
    ensures m >= init && forall k | 0 <= k < |xs| :: m >= xs[k]
  {
    if xs == [] then init
    else
      var m0 := Highest(xs[..|xs| - 1], init);
      assert forall k | 0 <= k < |xs| - 1 :: xs[..|xs| - 1][k] == xs[k];
      if xs[|xs| - 1] > m0 then xs[|xs| - 1] else m0
  }

  /** The scan's result is attained: either the starting sentinel or a reading. */
  lemma {:induction false} LowestAttained(xs: seq<real>, init: real)
    ensures Lowest(xs, init) == init || Lowest(xs, init) in xs
  {
    if xs != [] {
      LowestAttained(xs[..|xs| - 1], init);
      assert xs == xs[..|xs| - 1] + [xs[|xs| - 1]];
    }
  }

  lemma {:induction false} HighestAttained(xs: seq<real>, init: real)
    ensures Highest(xs, init) == init || Highest(xs, init) in xs
  {
    if xs != [] {
      HighestAttained(xs[..|xs| - 1], init);
      assert xs == xs[..|xs| - 1] + [xs[|xs| - 1]];
    }
  }

  /** The sentinels the summary's temperature scan starts from. */
  const MinTempSentinel: real := 1000.0
  const MaxTempSentinel: real := -1000.0

  /** Go's math.Round: to the nearest integer, halves away from zero. */
  function RoundHalfAway(y: real): (n: int)
    ensures -0.5 <= (n as real) - y <= 0.5
    ensures y >= 0.0 ==> n >= 0
  {
    if y >= 0.0 then (y + 0.5).Floor else -((-y + 0.5).Floor)
  }

  /** Rounding to two decimals, math.Round(x*100)/100. */
  function Round2(x: real): (r: real)
    ensures -0.005 <= r - x <= 0.005
    ensures (r * 100.0).Floor as real == r * 100.0
  {
    var n := RoundHalfAway(x * 100.0);
    assert (n as real / 100.0) * 100.0 == n as real;
    n as real / 100.0
  }

  /** A summary from the window's figures: every amount rounded to two decimals. */
  function SummaryFrom(now: int, avgAmps: real, kwh: real, totalKwh: real, lo: real, hi: real, presentSeconds: int,
                       costKwh: real): Records.Resumen
  {
    Records.Resumen(now, Round2(avgAmps), Round2(kwh), Round2(totalKwh), Round2(lo), Round2(hi),
                    presentSeconds, Round2(kwh * costKwh), Round2(totalKwh * costKwh))
  }

  /** The summary of a window, given the consumption history that already includes this window. */
  function SummaryOf(now: int, currents: seq<real>, consumos: seq<real>, temps: seq<real>, presentSeconds: int,
                     voltage: real, costKwh: real): Records.Resumen
  {
    SummaryFrom(now, Average(currents), WindowKwh(currents, voltage), Sum(consumos),
                Lowest(temps, MinTempSentinel), Highest(temps, MaxTempSentinel), presentSeconds, costKwh)
  }

  /** A summaries loop that sums a list. */
  method SumLoop(xs: seq<real>) returns (total: real)
    ensures total == Sum(xs)
  {
    total := 0.0;
    for k := 0 to |xs|
      invariant total == Sum(xs[..k])
    {
      assert xs[..k + 1][..k] == xs[..k];
      total := total + xs[k];
    }
    assert xs[..|xs|] == xs;
  }

  /** The temperature scan: the lowest and highest reading, or the sentinels for an empty window. */
  method TemperatureRange(temps: seq<real>) returns (lo: real, hi: real)
    ensures lo == Lowest(temps, MinTempSentinel) && hi == Highest(temps, MaxTempSentinel)
  {
    lo, hi := MinTempSentinel, MaxTempSentinel;
    for k := 0 to |temps|
      invariant lo == Lowest(temps[..k], MinTempSentinel) && hi == Highest(temps[..k], MaxTempSentinel)
    {
      assert temps[..k + 1][..k] == temps[..k];
      if temps[k] < lo {
        lo := temps[k];
      }
      if temps[k] > hi {
        hi := temps[k];
      }
    }
    assert temps[..|temps|] == temps;
  }

  // ----- per-office state -----

  /** The accumulated window of an office. */
  datatype WindowState = WindowState(lastReading: int, currents: seq<real>, consumos: seq<real>, temps: seq<real>,
                           presentSeconds: int, lastSummary: int)

  /** The window after a reading: its current and temperature are appended and presence counts ten seconds. */
  function Accumulated(w: WindowState, r: Reading): (w': WindowState)
    ensures w'.currents == w.currents + [r.current] && w'.temps == w.temps + [r.temperature]
    ensures w'.presentSeconds == w.presentSeconds + (if r.presence then ReadingSeconds else 0)
    ensures w'.lastReading == r.timestamp
    ensures w'.consumos == w.consumos && w'.lastSummary == w.lastSummary
  {
    w.(lastReading := r.timestamp, currents := w.currents + [r.current], temps := w.temps + [r.temperature],
       presentSeconds := w.presentSeconds + (if r.presence then ReadingSeconds else 0))
  }

  /** A new window starting at `now`; the consumption history and the last reading time are kept. */
  function Reset(w: WindowState, now: int): (w': WindowState)
    ensures w'.currents == [] && w'.temps == [] && w'.presentSeconds == 0 && w'.lastSummary == now
    ensures w'.consumos == w.consumos && w'.lastReading == w.lastReading
  {
    w.(currents := [], temps := [], presentSeconds := 0, lastSummary := now)
  }

  /** A summary is due once a minute has passed since the last one. */
  predicate SummaryDue(w: WindowState, now: int)
  {
    now - w.lastSummary >= SummarySeconds
  }

  /**
   * The window once the summary check has run at `now`: when a summary is
   * due the window's kWh joins the history, and the window restarts only
   * when `restart` holds (after a saved summary in the configurable
   * subscribers, always in the fixed one).
   */
  function Concluded(w: WindowState, now: int, voltage: real, restart: bool): WindowState
  {
    if SummaryDue(w, now) then
      var w2 := w.(consumos := w.consumos + [WindowKwh(w.currents, voltage)]);
      if restart then Reset(w2, now) else w2
    else w
  }

  /** The summary produced at `now`, when one is due. */
  function SummaryAt(w: WindowState, now: int, voltage: real, costKwh: real): Option<Records.Resumen>
  {
    if SummaryDue(w, now)
    then Some(SummaryOf(now, w.currents, w.consumos + [WindowKwh(w.currents, voltage)], w.temps, w.presentSeconds,
                        voltage, costKwh))
    else None
  }

  /** One reading's effect on the window in a subscriber's callback: it is accumulated, then the summary check runs. */
  function CycleWindow(w: WindowState, r: Reading, now: int, voltage: real, restart: bool): WindowState
  {
    Concluded(Accumulated(w, r), now, voltage, restart)
  }

  /** The window keeps one temperature per current and at most ten seconds of presence per reading. */
  predicate WellFormed(w: WindowState)
  {
    |w.temps| == |w.currents| && 0 <= w.presentSeconds <= ReadingSeconds * |w.currents|
  }

  lemma CycleKeepsWellFormed(w: WindowState, r: Reading, now: int, voltage: real, restart: bool)
    requires WellFormed(w)
    ensures WellFormed(CycleWindow(w, r, now, voltage, restart))
  {
  }

  /**
   * Without a due summary only the reading is added; with one, the history
   * grows by the kWh of the window including this reading, and the window
   * restarts exactly when `restart` holds.
   */
  lemma CycleSummary(w: WindowState, r: Reading, now: int, voltage: real, restart: bool)
    ensures var w' := CycleWindow(w, r, now, voltage, restart);
      && (!SummaryDue(w, now) ==> w' == Accumulated(w, r))
      && (SummaryDue(w, now) ==> w'.consumos == w.consumos + [WindowKwh(w.currents + [r.current], voltage)])
      && (SummaryDue(w, now) && restart ==> w'.currents == [] && w'.presentSeconds == 0 && w'.lastSummary == now)
      && (SummaryDue(w, now) && !restart ==> w'.currents == w.currents + [r.current] && w'.lastSummary == w.lastSummary)
  {
  }

  /** A reading with its callback clock and whether a summary written for it was saved. */
  datatype Tick = Tick(r: Reading, now: int, saved: bool)

  /** The window after a run of callbacks. */
  function Run(w: WindowState, ticks: seq<Tick>, voltage: real): WindowState
  {
    if ticks == [] then w
    else
      var t := ticks[|ticks| - 1];
      CycleWindow(Run(w, ticks[..|ticks| - 1], voltage), t.r, t.now, voltage, t.saved)
  }

  /** The consumption history is never reset: every run only appends to it, at most once per reading. */
  lemma {:induction false} RunOnlyAppendsConsumos(w: WindowState, ticks: seq<Tick>, voltage: real)
    ensures var w' := Run(w, ticks, voltage);
      |w.consumos| <= |w'.consumos| <= |w.consumos| + |ticks| && w'.consumos[..|w.consumos|] == w.consumos
  {
    if ticks != [] {
      RunOnlyAppendsConsumos(w, ticks[..|ticks| - 1], voltage);
    }
  }

  /** A run keeps the window well formed. */
  lemma {:induction false} RunKeepsWellFormed(w: WindowState, ticks: seq<Tick>, voltage: real)
    requires WellFormed(w)
    ensures WellFormed(Run(w, ticks, voltage))
  {
    if ticks != [] {
      var t := ticks[|ticks| - 1];
      RunKeepsWellFormed(w, ticks[..|ticks| - 1], voltage);
      CycleKeepsWellFormed(Run(w, ticks[..|ticks| - 1], voltage), t.r, t.now, voltage, t.saved);
    }
  }

  /**
   * When a due summary is not saved, the window is kept and the summary is
   * due again on the next reading, whose kWh covers the earlier readings once
   * more: the history then counts the first window twice.
   */
  lemma UnsavedSummaryCountsWindowAgain(w: WindowState, r1: Reading, now1: int, r2: Reading, now2: int, voltage: real)
    requires SummaryDue(w, now1) && now2 >= now1
    ensures var w' := CycleWindow(CycleWindow(w, r1, now1, voltage, false), r2, now2, voltage, true);
      w'.consumos == w.consumos + [WindowKwh(w.currents + [r1.current], voltage),
                                   WindowKwh(w.currents + [r1.current, r2.current], voltage)]
  {
    assert w.currents + [r1.current] + [r2.current] == w.currents + [r1.current, r2.current];
  }

  /** The state an edge subscriber keeps for one office. */
  class OfficeState {
    var ultimaLectura: int
    var corrientes: seq<real>
    var consumos: seq<real>
    var temperaturas: seq<real>
    var tiempoPresente: int
    var ultimoResumen: int
    var luzEncendida: bool
    var aireEncendido: bool
    var sinCorrienteDesde: Option<int>
    var sensorFueraDeServicio: bool
    var consumoElevado: bool

    /** A new office: everything zero, empty and off. */
    constructor ()
      ensures Window() == WindowState(0, [], [], [], 0, 0)
      ensures Latching() == Latches(false, false, None, false, false)
    {
      ultimaLectura, tiempoPresente, ultimoResumen := 0, 0, 0;
      corrientes, consumos, temperaturas := [], [], [];
      luzEncendida, aireEncendido, sensorFueraDeServicio, consumoElevado := false, false, false, false;
      sinCorrienteDesde := None;
    }

    function Window(): WindowState
      reads this
    {
      WindowState(ultimaLectura, corrientes, consumos, temperaturas, tiempoPresente, ultimoResumen)
    }

    function Latching(): Latches
      reads this
    {
      Latches(luzEncendida, aireEncendido, sinCorrienteDesde, sensorFueraDeServicio, consumoElevado)
    }

    /** Adds a reading to the window; presence counts ten seconds. */
    method Accumulate(r: Reading)
      modifies this
      ensures Window() == Accumulated(old(Window()), r)
      ensures Latching() == old(Latching())
    {
      corrientes := corrientes + [r.current];
      temperaturas := temperaturas + [r.temperature];
      if r.presence {
        tiempoPresente := tiempoPresente + ReadingSeconds;
      }
      ultimaLectura := r.timestamp;
    }

    /** Starts a new window after a summary. */
    method ResetWindow(now: int)
      modifies this
      ensures Window() == Reset(old(Window()), now)
      ensures Latching() == old(Latching())
    {
      ultimoResumen := now;
      corrientes := [];
      temperaturas := [];
      tiempoPresente := 0;
    }

    /**
     * The summary of the current window; the window's kWh is appended to
     * the consumption history first, so the totals include it.
     */
    method GenerarResumen(now: int, voltage: real, costKwh: real) returns (r: Records.Resumen)
      modifies this
      ensures consumos == old(consumos) + [WindowKwh(old(corrientes), voltage)]
      ensures r == SummaryOf(now, corrientes, consumos, temperaturas, tiempoPresente, voltage, costKwh)
      ensures corrientes == old(corrientes) && temperaturas == old(temperaturas)
      ensures ultimaLectura == old(ultimaLectura) && tiempoPresente == old(tiempoPresente) && ultimoResumen == old(ultimoResumen)
      ensures Latching() == old(Latching())
    {
      var sumaCorrientes := SumLoop(corrientes);
      var promedio := 0.0;
      if |corrientes| > 0 {
        promedio := sumaCorrientes / (|corrientes| as real);
      }
      assert promedio == Average(corrientes);
      var horas := ((|corrientes| * ReadingSeconds) as real) / 3600.0;
      var kwh := promedio * voltage * horas / 1000.0;
      assert kwh == WindowKwh(corrientes, voltage);
      consumos := consumos + [kwh];
      var sumaConsumos := SumLoop(consumos);
      var lo, hi := TemperatureRange(temperaturas);
      r := SummaryFrom(now, promedio, kwh, sumaConsumos, lo, hi, tiempoPresente, costKwh);
    }
  }

  /** The lights check on an office's state. */
  method DetectLights(st: OfficeState, r: Reading, lightsOn: bool) returns (alerts: seq<Alert>)
    modifies st`luzEncendida
    ensures alerts == LightPart(old(st.luzEncendida), r, lightsOn)
    ensures st.luzEncendida == SwitchStep(r.presence, lightsOn, old(st.luzEncendida)).0
  {
    alerts := [];
    if r.presence {
      if !lightsOn && st.luzEncendida {
        alerts := [LightsOffByState];
        st.luzEncendida := false;
      } else if lightsOn && !st.luzEncendida {
        alerts := [LightsOn];
        st.luzEncendida := true;
      }
    } else if !r.presence && st.luzEncendida {
      alerts := [LightsOffByAbsence];
      st.luzEncendida := false;
    }
  }

  /** The air-conditioning check on an office's state. */
  method DetectAc(st: OfficeState, r: Reading, acOn: bool, th: Thresholds) returns (alerts: seq<Alert>)
    modifies st`aireEncendido
    ensures alerts == AcPart(old(st.aireEncendido), r, acOn, th)
    ensures st.aireEncendido == SwitchStep(AcWanted(r, th), acOn, old(st.aireEncendido)).0
  {
    alerts := [];
    var debePrenderAire := r.presence && r.temperature > th.acTemperature;
    if debePrenderAire {
      if !acOn && st.aireEncendido {
        alerts := [AcOffByState];
        st.aireEncendido := false;
      } else if acOn && !st.aireEncendido {
        alerts := [AcOn];
        st.aireEncendido := true;
      }
    } else if !debePrenderAire && st.aireEncendido {
      alerts := [AcOffByConditions];
      st.aireEncendido := false;
    }
  }

  /** The outage timer on an office's state. */
  method DetectOutage(st: OfficeState, r: Reading) returns (alerts: seq<Alert>)
    modifies st`sinCorrienteDesde
    ensures alerts == OutagePart(old(st.sinCorrienteDesde), r)
    ensures st.sinCorrienteDesde == OutageStep(r.current, r.timestamp, old(st.sinCorrienteDesde)).0
  {
    alerts := [];
    if r.current <= 0.0 {
      if st.sinCorrienteDesde.None? {
        st.sinCorrienteDesde := Some(r.timestamp);
      } else if r.timestamp - st.sinCorrienteDesde.value > OutageSeconds {
        alerts := [PowerOutage(r.timestamp - st.sinCorrienteDesde.value)];
        st.sinCorrienteDesde := None;
      }
    } else {
      st.sinCorrienteDesde := None;
    }
  }

  /** The silent-sensor latch on an office's state. */
  method DetectSilence(st: OfficeState, now: int) returns (alerts: seq<Alert>)
    modifies st`sensorFueraDeServicio
    ensures alerts == SilencePart(old(st.sensorFueraDeServicio), now - st.ultimaLectura)
    ensures st.sensorFueraDeServicio == LatchStep(now - st.ultimaLectura > SilenceSeconds, old(st.sensorFueraDeServicio)).0
  {
    alerts := [];
    var tiempoSinRespuesta := now - st.ultimaLectura;
    if tiempoSinRespuesta > SilenceSeconds && !st.sensorFueraDeServicio {
      alerts := [SensorSilent(tiempoSinRespuesta)];
      st.sensorFueraDeServicio := true;
    } else if tiempoSinRespuesta <= SilenceSeconds && st.sensorFueraDeServicio {
      st.sensorFueraDeServicio := false;
    }
  }

  /** The high-current latch on an office's state. */
  method DetectCurrent(st: OfficeState, r: Reading, th: Thresholds) returns (alerts: seq<Alert>)
    modifies st`consumoElevado
    ensures alerts == CurrentPart(old(st.consumoElevado), r, th)
    ensures st.consumoElevado == LatchStep(r.current > th.current, old(st.consumoElevado)).0
  {
    alerts := [];
    if r.current > th.current && !st.consumoElevado {
      alerts := [HighCurrent(r.current)];
      st.consumoElevado := true;
    } else if r.current <= th.current && st.consumoElevado {
      st.consumoElevado := false;
    }
  }

  /** The lights and air-conditioning checks, alerts 0 to 5. */
  method DetectSwitches(st: OfficeState, r: Reading, lightsOn: bool, acOn: bool, th: Thresholds) returns (alerts: seq<Alert>)
    modifies st`luzEncendida, st`aireEncendido
    ensures alerts == LightPart(old(st.luzEncendida), r, lightsOn) + AcPart(old(st.aireEncendido), r, acOn, th)
    ensures st.luzEncendida == NextLatches(old(st.Latching()), r, lightsOn, acOn, th, 0).light
    ensures st.aireEncendido == NextLatches(old(st.Latching()), r, lightsOn, acOn, th, 0).ac
  {
    var lights := DetectLights(st, r, lightsOn);
    var ac := DetectAc(st, r, acOn, th);
    alerts := lights + ac;
  }

  /** The consumption, outage, silence and current checks, alerts 6 to 9. */
  method DetectSupply(st: OfficeState, r: Reading, th: Thresholds, now: int) returns (alerts: seq<Alert>)
    modifies st`sinCorrienteDesde, st`sensorFueraDeServicio, st`consumoElevado
    ensures alerts == AnomalyPart(r) + (OutagePart(old(st.sinCorrienteDesde), r)
      + (SilencePart(old(st.sensorFueraDeServicio), now - st.ultimaLectura) + CurrentPart(old(st.consumoElevado), r, th)))
    ensures st.sinCorrienteDesde == OutageStep(r.current, r.timestamp, old(st.sinCorrienteDesde)).0
    ensures st.sensorFueraDeServicio == (now - st.ultimaLectura > SilenceSeconds)
    ensures st.consumoElevado == (r.current > th.current)
  {
    var anomaly := if !r.presence && r.current > AnomalousAmps then [AnomalousConsumption(r.current)] else [];
    var outage := DetectOutage(st, r);
    var silent := DetectSilence(st, now);
    var high := DetectCurrent(st, r, th);
    alerts := anomaly + (outage + (silent + high));
  }

  /**
   * The detector, check by check in the source's order. `now` is the
   * detector's clock; the silence it measures is `now` minus the office's
   * last reading time (which the callers set to the reading's own
   * timestamp just before).
   */
  method Detect(st: OfficeState, r: Reading, lightsOn: bool, acOn: bool, th: Thresholds, now: int) returns (alerts: seq<Alert>)
    modifies st
    ensures st.Latching() == NextLatches(old(st.Latching()), r, lightsOn, acOn, th, now - old(st.ultimaLectura))
    ensures alerts == StepAlerts(old(st.Latching()), r, lightsOn, acOn, th, now - old(st.ultimaLectura))
    ensures st.Window() == old(st.Window())
  {
    var switches := DetectSwitches(st, r, lightsOn, acOn, th);
    var supply := DetectSupply(st, r, th, now);
    alerts := switches + supply;
  }

  /** The office table: an office's state is created the first time it reports. */
  class StateTable {
    var estados: map<string, OfficeState>

    constructor ()
      ensures estados == map[]
    {
      estados := map[];
    }

    method Obtener(office: string) returns (st: OfficeState)
      modifies this
      ensures office in old(estados) ==> st == old(estados)[office] && estados == old(estados)
      ensures office !in old(estados) ==>
                && fresh(st) && estados == old(estados)[office := st]
                && st.Window() == WindowState(0, [], [], [], 0, 0)
                && st.Latching() == Latches(false, false, None, false, false)
    {
      if office in estados {
        return estados[office];
      }
      st := new OfficeState();
      estados := estados[office := st];
    }
  }
}
