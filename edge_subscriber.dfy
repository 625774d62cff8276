/**
 * The two configurable edge subscribers, mqtt/subscriber/main.go and
 * mqtt/subscriber/monitoreo_consumo.go. They learn their parameters, the
 * notice types, the device states and the offices from four feed messages,
 * run the shared per-office detector on every sensor reading and turn each
 * raised alert into a notice whose type id is taken, by position, from the
 * list of notice types. main.go stops when that list is empty;
 * monitoreo_consumo.go indexes it regardless, so a short list crashes the
 * process.
 */
module EdgeSubscriber {
  import opened Base
  import opened EdgeAlerts
  import opened Feeds
  import Records

  /** The extra text of a notice; the three formatted ones keep their number. */
  datatype Extra = NoExtra | Amps(amps: real) | WithoutCurrentFor(seconds: int) | NoResponseFor(seconds: int)

  datatype Aviso = Aviso(timestamp: int, idTipo: string, adicional: Extra)

  /** What detection yields: the notices, or a crash from indexing past the end of the id list. */
  datatype Detection = Panicked | Avisos(avisos: seq<Aviso>)

  /** Everything detection reads besides the office's own state. */
  datatype Settings = Settings(guarded: bool, config: Config, ids: seq<string>, devices: map<string, map<string, bool>>)

  /** The outcome of one sensor message. */
  datatype Outcome = Ignored | Crashed | Handled(avisos: seq<Aviso>, resumen: Option<Records.Resumen>)

  /** The consumption and current notices carry the amps, the outage and silence notices the seconds. */
  function ExtraOf(a: Alert): (e: Extra)
    ensures e.NoExtra? <==> Index(a) < 6
    ensures e.Amps? <==> Index(a) == 6 || Index(a) == 9
    ensures e.WithoutCurrentFor? <==> Index(a) == 7
    ensures e.NoResponseFor? <==> Index(a) == 8
  {
    match a
    case AnomalousConsumption(amps) => Amps(amps)
    case PowerOutage(seconds) => WithoutCurrentFor(seconds)
    case SensorSilent(seconds) => NoResponseFor(seconds)
    case HighCurrent(amps) => Amps(amps)
    case _ => NoExtra
  }

  /** Every alert's position exists in the id list. */
  predicate Covers(ids: seq<string>, alerts: seq<Alert>)
  {
    forall k | 0 <= k < |alerts| :: Index(alerts[k]) < |ids|
  }

  /**
   * The notices for a run of alerts, all stamped with the detector's clock:
   * the k-th notice has the id at the k-th alert's position; one alert whose
   * position is past the end of the list is a crash.
   */
  function AvisosFor(alerts: seq<Alert>, ids: seq<string>, now: int): (d: Detection)
    ensures d.Avisos? <==> Covers(ids, alerts)
    ensures d.Avisos? ==> |d.avisos| == |alerts|
    ensures d.Avisos? ==> forall k | 0 <= k < |alerts| ::
                            d.avisos[k] == Aviso(now, ids[Index(alerts[k])], ExtraOf(alerts[k]))
  {
    if alerts == [] then Avisos([])
    else
      var a := alerts[|alerts| - 1];
      var front := AvisosFor(alerts[..|alerts| - 1], ids, now);
      if front.Panicked? || Index(a) >= |ids| then Panicked
      else Avisos(front.avisos + [Aviso(now, ids[Index(a)], ExtraOf(a))])
  }

  /** main.go returns before any check when it knows no notice types. */
  predicate Skips(s: Settings)
  {
    s.guarded && s.ids == []
  }

  function ThresholdsOf(c: Config): Thresholds
  {
    Thresholds(c.umbralTemperaturaAC, c.umbralCorriente)
  }

  /** The alerts of one reading; the silence is the detector's clock minus the office's last reading time. */
  function AlertsOf(s: Settings, l: Latches, r: Reading, now: int, lastReading: int): seq<Alert>
  {
    StepAlerts(l, r, Switch(s.devices, r.office, "luces"), Switch(s.devices, r.office, "aire"),
               ThresholdsOf(s.config), now - lastReading)
  }

  /** What detection returns for one reading. */
  function Detected(s: Settings, l: Latches, r: Reading, now: int, lastReading: int): Detection
  {
    if Skips(s) then Avisos([]) else AvisosFor(AlertsOf(s, l, r, now, lastReading), s.ids, now)
  }

  /** The office's latches after detection. */
  function LatchesAfter(s: Settings, l: Latches, r: Reading, now: int, lastReading: int): Latches
  {
    if Skips(s) then l
    else NextLatches(l, r, Switch(s.devices, r.office, "luces"), Switch(s.devices, r.office, "aire"),
                     ThresholdsOf(s.config), now - lastReading)
  }

  /**
   * The outcome of one reading for an office whose window was `w` and
   * latches `l`: the reading is accumulated first, so the detector sees the
   * reading's own timestamp as the last reading; a summary is produced when
   * one is due.
   */
  function CallbackOutcome(s: Settings, w: WindowState, l: Latches, r: Reading, ahora: int, nowDetect: int): Outcome
  {
    var d := Detected(s, l, r, nowDetect, r.timestamp);
    if d.Panicked? then Crashed
    else Handled(d.avisos, SummaryAt(Accumulated(w, r), ahora, s.config.voltaje, s.config.costoKwh))
  }

  /** With ten notice types or more no reading crashes detection. */
  lemma TenIdsNeverPanic(s: Settings, l: Latches, r: Reading, now: int, lastReading: int)
    requires |s.ids| >= 10
    ensures Detected(s, l, r, now, lastReading).Avisos?
  {
    var alerts := AlertsOf(s, l, r, now, lastReading);
    assert forall k | 0 <= k < |alerts| :: Index(alerts[k]) < 10;
  }

  /**
   * With fewer than ten notice types and no early return, a reading above
   * the current threshold while the high-current latch is down crashes
   * detection: its alert sits at position 9.
   */
  lemma ShortIdListPanicsOnHighCurrent(s: Settings, l: Latches, r: Reading, now: int, lastReading: int)
    requires !Skips(s) && |s.ids| < 10
    requires r.current > s.config.umbralCorriente && !l.highCurrent
    ensures Detected(s, l, r, now, lastReading).Panicked?
  {
    var lightsOn, acOn := Switch(s.devices, r.office, "luces"), Switch(s.devices, r.office, "aire");
    StepRaisesHighCurrent(l, r, lightsOn, acOn, ThresholdsOf(s.config), now - lastReading);
    var alerts := AlertsOf(s, l, r, now, lastReading);
    var k :| 0 <= k < |alerts| && alerts[k] == HighCurrent(r.current);
    assert Index(alerts[k]) == 9;
  }

  /** With an empty id list and no early return, any alert at all crashes detection. */
  lemma EmptyIdListPanicsOnAnyAlert(s: Settings, l: Latches, r: Reading, now: int, lastReading: int)
    requires !s.guarded && s.ids == []
    ensures Detected(s, l, r, now, lastReading).Panicked? <==> AlertsOf(s, l, r, now, lastReading) != []
  {
    var alerts := AlertsOf(s, l, r, now, lastReading);
    if alerts != [] {
      assert Index(alerts[0]) >= |s.ids|;
    }
  }

  /** With distinct ids, a notice's id names the check that raised it. */
  lemma NoticeNamesItsCheck(s: Settings, l: Latches, r: Reading, now: int, lastReading: int, k: nat, i: nat)
    requires !Skips(s) && Distinct(s.ids) && i < |s.ids|
    requires Detected(s, l, r, now, lastReading).Avisos?
    requires k < |Detected(s, l, r, now, lastReading).avisos|
    ensures Detected(s, l, r, now, lastReading).avisos[k].idTipo == s.ids[i]
            <==> Index(AlertsOf(s, l, r, now, lastReading)[k]) == i
  {
  }

  /** Some notice has one of the given type ids. */
  predicate HasNoticeOf(avisos: seq<Aviso>, types: seq<string>)
  {
    exists k | 0 <= k < |avisos| :: avisos[k].idTipo in types
  }

  /** With distinct ids, some notice has an id in `ids[lo..hi]` exactly when some alert's position is in that range. */
  lemma NoticesInRange(alerts: seq<Alert>, ids: seq<string>, now: int, lo: nat, hi: nat)
    requires Distinct(ids) && lo <= hi <= |ids| && AvisosFor(alerts, ids, now).Avisos?
    ensures HasNoticeOf(AvisosFor(alerts, ids, now).avisos, ids[lo..hi])
            <==> (exists k | 0 <= k < |alerts| :: lo <= Index(alerts[k]) < hi)
  {
    var avisos := AvisosFor(alerts, ids, now).avisos;
    if HasNoticeOf(avisos, ids[lo..hi]) {
      var k :| 0 <= k < |avisos| && avisos[k].idTipo in ids[lo..hi];
      var i :| 0 <= i < hi - lo && ids[lo..hi][i] == avisos[k].idTipo;
      assert ids[lo + i] == ids[Index(alerts[k])];
      assert lo + i == Index(alerts[k]);
    }
    if exists k | 0 <= k < |alerts| :: lo <= Index(alerts[k]) < hi {
      var k :| 0 <= k < |alerts| && lo <= Index(alerts[k]) < hi;
      assert ids[lo..hi][Index(alerts[k]) - lo] == avisos[k].idTipo;
    }
  }


  /**
   * With ten distinct notice types, a notice of types 0 to 2 appears exactly
   * when the lights latch changes.
   */
  lemma LightNoticesFollowLatch(l: Latches, r: Reading, lightsOn: bool, acOn: bool, th: Thresholds, silence: int,
                                ids: seq<string>, now: int)
    requires Distinct(ids) && |ids| >= 10
    ensures var d := AvisosFor(StepAlerts(l, r, lightsOn, acOn, th, silence), ids, now);
      && d.Avisos?
      && (HasNoticeOf(d.avisos, ids[0..3]) <==> NextLatches(l, r, lightsOn, acOn, th, silence).light != l.light)
  {
    var alerts := StepAlerts(l, r, lightsOn, acOn, th, silence);
    assert Covers(ids, alerts);
    StepReportsLightChange(l, r, lightsOn, acOn, th, silence);
    NoticesInRange(alerts, ids, now, 0, 3);
  }

  /**
   * With ten distinct notice types, a notice of types 3 to 5 appears exactly
   * when the air-conditioning latch changes.
   */
  lemma AcNoticesFollowLatch(l: Latches, r: Reading, lightsOn: bool, acOn: bool, th: Thresholds, silence: int,
                             ids: seq<string>, now: int)
    requires Distinct(ids) && |ids| >= 10
    ensures var d := AvisosFor(StepAlerts(l, r, lightsOn, acOn, th, silence), ids, now);
      && d.Avisos?
      && (HasNoticeOf(d.avisos, ids[3..6]) <==> NextLatches(l, r, lightsOn, acOn, th, silence).ac != l.ac)
  {
    var alerts := StepAlerts(l, r, lightsOn, acOn, th, silence);
    assert Covers(ids, alerts);
    StepReportsAcChange(l, r, lightsOn, acOn, th, silence);
    NoticesInRange(alerts, ids, now, 3, 6);
  }

  /** The package state of a configurable subscriber. */
  class Subscriber {
    /** Whether detection returns early without notice types (main.go) or not (monitoreo_consumo.go). */
    const guarded: bool
    var config: Config
    var idsTiposAvisos: seq<string>
    var dispositivoEstados: map<string, map<string, bool>>
    var oficinas: seq<string>
    const mapaEstados: StateTable

    constructor (guarded: bool)
      ensures this.guarded == guarded && config == ZeroConfig
      ensures idsTiposAvisos == [] && dispositivoEstados == map[] && oficinas == []
      ensures fresh(mapaEstados) && mapaEstados.estados == map[]
    {
      this.guarded := guarded;
      config := ZeroConfig;
      idsTiposAvisos := [];
      dispositivoEstados := map[];
      oficinas := [];
      mapaEstados := new StateTable();
    }

    function Current(): Settings
      reads this
    {
      Settings(guarded, config, idsTiposAvisos, dispositivoEstados)
    }

    /** A `params` message replaces the configuration; anything else leaves it. */
    method ActualizarParamsConfig(m: Feed<Config>)
      modifies this`config
      ensures config == if m.Feed? && m.tipo == "params" then m.data else old(config)
    {
      if m.Unparsable? || m.tipo != "params" {
        return;
      }
      config := m.data;
    }

    /** A `tipos_avisos` message replaces the id list with the message's keys, each once. */
    method ActualizarTiposAvisos(m: Feed<map<string, Records.TipoAviso>>)
      modifies this`idsTiposAvisos
      ensures !(m.Feed? && m.tipo == "tipos_avisos") ==> idsTiposAvisos == old(idsTiposAvisos)
      ensures m.Feed? && m.tipo == "tipos_avisos" ==>
                && (forall x :: x in idsTiposAvisos <==> x in m.data)
                && Distinct(idsTiposAvisos) && |idsTiposAvisos| == |m.data|
    {
      if m.Unparsable? || m.tipo != "tipos_avisos" {
        return;
      }
      idsTiposAvisos := KeysOf(m.data);
    }

    /** A `dispositivos` message replaces the device states wholesale. */
    method ActualizarDispositivos(m: Feed<map<string, map<string, bool>>>)
      modifies this`dispositivoEstados
      ensures dispositivoEstados == if m.Feed? && m.tipo == "dispositivos" then m.data else old(dispositivoEstados)
    {
      if m.Unparsable? || m.tipo != "dispositivos" {
        return;
      }
      dispositivoEstados := m.data;
    }

    /** An `oficinas` message replaces the office list with the message's keys, each once. */
    method ActualizarOficinas<V>(m: Feed<map<string, V>>)
      modifies this`oficinas
      ensures !(m.Feed? && m.tipo == "oficinas") ==> oficinas == old(oficinas)
      ensures m.Feed? && m.tipo == "oficinas" ==>
                && (forall x :: x in oficinas <==> x in m.data)
                && Distinct(oficinas) && |oficinas| == |m.data|
    {
      if m.Unparsable? || m.tipo != "oficinas" {
        return;
      }
      oficinas := KeysOf(m.data);
    }

    /**
     * The detector over an office's state, with `now` the detector's clock.
     * Without notice types main.go returns at once and leaves the state as it
     * was.
     */
    method DetectarAvisos(r: Reading, st: OfficeState, now: int) returns (d: Detection)
      modifies st
      ensures d == Detected(Current(), old(st.Latching()), r, now, old(st.ultimaLectura))
      ensures d.Avisos? ==> st.Latching() == LatchesAfter(Current(), old(st.Latching()), r, now, old(st.ultimaLectura))
      ensures Skips(Current()) ==> st.Latching() == old(st.Latching())
      ensures st.Window() == old(st.Window())
    {
      if guarded && |idsTiposAvisos| == 0 {
        return Avisos([]);
      }
      var lightsOn := Switch(dispositivoEstados, r.office, "luces");
      var acOn := Switch(dispositivoEstados, r.office, "aire");
      ghost var l, last := st.Latching(), st.ultimaLectura;
      var alerts := Detect(st, r, lightsOn, acOn, ThresholdsOf(config), now);
      assert alerts == AlertsOf(Current(), l, r, now, last);
      d := AvisosFor(alerts, idsTiposAvisos, now);
      assert d == Detected(Current(), l, r, now, last);
    }

    /**
     * The summary check after a reading: when one is due the summary is
     * produced, and the window restarts only if its write succeeds.
     */
    method Summarize(st: OfficeState, ahora: int, saved: bool) returns (resumen: Option<Records.Resumen>)
      modifies st
      ensures resumen == SummaryAt(old(st.Window()), ahora, config.voltaje, config.costoKwh)
      ensures st.Window() == Concluded(old(st.Window()), ahora, config.voltaje, saved)
      ensures st.Latching() == old(st.Latching())
    {
      resumen := None;
      if ahora - st.ultimoResumen >= SummarySeconds {
        var res := st.GenerarResumen(ahora, config.voltaje, config.costoKwh);
        resumen := Some(res);
        if saved {
          st.ResetWindow(ahora);
        }
      }
    }

    /**
     * One reading on an office's state. The reading is accumulated before
     * detection, so the silence the detector measures is its clock minus the
     * reading's own timestamp.
     */
    method Handle(st: OfficeState, r: Reading, ahora: int, nowDetect: int, saved: bool) returns (out: Outcome)
      modifies st
      ensures out == CallbackOutcome(Current(), old(st.Window()), old(st.Latching()), r, ahora, nowDetect)
      ensures out.Handled? ==> st.Window() == CycleWindow(old(st.Window()), r, ahora, config.voltaje, saved)
      ensures out.Handled? ==> st.Latching() == LatchesAfter(Current(), old(st.Latching()), r, nowDetect, r.timestamp)
    {
      st.Accumulate(r);
      var d := DetectarAvisos(r, st, nowDetect);
      if d.Panicked? {
        return Crashed;
      }
      var resumen := Summarize(st, ahora, saved);
      out := Handled(d.avisos, resumen);
    }

    /**
     * The sensor-topic callback. `ahora` is the callback's clock, `nowDetect`
     * the detector's and `saved` whether the summary write succeeds; notice
     * writes only log their errors. A message that does not decode is
     * dropped.
     */
    method OnReading(payload: Option<Reading>, ahora: int, nowDetect: int, saved: bool) returns (out: Outcome)
      modifies mapaEstados, mapaEstados.estados.Values
      ensures payload.None? ==> out == Ignored && mapaEstados.estados == old(mapaEstados.estados)
      ensures payload.None? ==> forall st | st in old(mapaEstados.estados.Values) :: unchanged(st)
      ensures payload.Some? ==>
                var r := payload.value;
                var known := r.office in old(mapaEstados.estados);
                && r.office in mapaEstados.estados
                && mapaEstados.estados == old(mapaEstados.estados)[r.office := mapaEstados.estados[r.office]]
                && (known ==> mapaEstados.estados[r.office] == old(mapaEstados.estados[r.office]))
                && (!known ==> fresh(mapaEstados.estados[r.office]))
                && (forall st | st in old(mapaEstados.estados.Values) && st != mapaEstados.estados[r.office] :: unchanged(st))
      ensures payload.Some? ==>
                var r := payload.value;
                var known := r.office in old(mapaEstados.estados);
                var w := if known then old(mapaEstados.estados[r.office].Window()) else WindowState(0, [], [], [], 0, 0);
                var l := if known then old(mapaEstados.estados[r.office].Latching()) else Latches(false, false, None, false, false);
                var st := mapaEstados.estados[r.office];
                && out == CallbackOutcome(Current(), w, l, r, ahora, nowDetect)
                && (out.Handled? ==> st.Window() == CycleWindow(w, r, ahora, config.voltaje, saved))
                && (out.Handled? ==> st.Latching() == LatchesAfter(Current(), l, r, nowDetect, r.timestamp))
    {
      if payload.None? {
        return Ignored;
      }
      var r := payload.value;
      var st := mapaEstados.Obtener(r.office);
      out := Handle(st, r, ahora, nowDetect, saved);
    }
  }
}
