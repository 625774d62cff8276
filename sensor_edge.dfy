/**
 * The fixed-parameter edge subscriber, mqtt/subscriber/sensor_edge.go. Its
 * thresholds, voltage and price are constants, it reads the device states
 * of three simulated sectors from the database every few seconds, turns
 * each raised alert into an event with a fixed reason, detail and severity,
 * and starts a new window after every summary whether or not the write
 * succeeded.
 */
module SensorEdge {
  import opened Base
  import opened EdgeAlerts
  import opened Feeds
  import Records

  /** Air conditioning above 25.0 degrees, current alert above 21.5 A. */
  const Umbrales: Thresholds := Thresholds(25.0, 21.5)
  const Voltaje: real := 220.0
  const CostoKwh: real := 0.25
  const Sectores: seq<string> := ["A", "B", "C"]

  /** A read that fails or finds nothing counts as both devices on. */
  function DevicesRead(f: Fetched): (m: map<string, bool>)
    ensures f.Found? ==> m == f.estados
    ensures !f.Found? ==> m.Keys == {"aire", "luces"} && m["aire"] && m["luces"]
  {
    if f.Found? then f.estados else BothOn
  }

  /** The event of an alert: reason, detail and severity (1 success, 2 error, 3 warning). */
  function EventoOf(sector: string, now: int, a: Alert): (e: Records.Evento)
    ensures e.sector == sector && e.timestamp == now
    ensures e.tipo == 1 <==> a.LightsOn? || a.AcOn?
    ensures e.tipo == 2 <==> a.LightsOffByState? || a.LightsOffByAbsence? || a.AcOffByState? || a.AcOffByConditions? || a.SensorSilent?
    ensures e.tipo == 3 <==> a.AnomalousConsumption? || a.PowerOutage? || a.HighCurrent?
    ensures a.PowerOutage? ==> e.detalle == Records.SecondsWithoutCurrent(a.seconds)
    ensures a.SensorSilent? ==> e.detalle == Records.SecondsSilent(a.seconds)
    ensures a.HighCurrent? ==> e.detalle == Records.ElevatedAmps(a.amps)
  {
    match a
    case LightsOffByState => Records.Evento(sector, now, "Luces apagadas", Records.Text("Estado de luces desactivado"), 2)
    case LightsOn => Records.Evento(sector, now, "Luces encendidas", Records.Text("Detección de presencia"), 1)
    case LightsOffByAbsence => Records.Evento(sector, now, "Luces apagadas", Records.Text("Ausencia detectada"), 2)
    case AcOffByState => Records.Evento(sector, now, "Aire apagado", Records.Text("Estado de aire acondicionado desactivado"), 2)
    case AcOn => Records.Evento(sector, now, "Aire encendido", Records.Text("Temperatura elevada con presencia"), 1)
    case AcOffByConditions => Records.Evento(sector, now, "Aire apagado", Records.Text("Condiciones para aire no cumplidas"), 2)
    case AnomalousConsumption(_) => Records.Evento(sector, now, "Consumo anómalo", Records.Text("Corriente alta sin presencia"), 3)
    case PowerOutage(seconds) => Records.Evento(sector, now, "Corte de energía", Records.SecondsWithoutCurrent(seconds), 3)
    case SensorSilent(seconds) => Records.Evento(sector, now, "Sensor no responde", Records.SecondsSilent(seconds), 2)
    case HighCurrent(amps) => Records.Evento(sector, now, "Alerta de corriente", Records.ElevatedAmps(amps), 3)
  }

  function EventosFor(sector: string, now: int, alerts: seq<Alert>): (es: seq<Records.Evento>)
    ensures |es| == |alerts| && forall k | 0 <= k < |alerts| :: es[k] == EventoOf(sector, now, alerts[k])
  {
    seq(|alerts|, k requires 0 <= k < |alerts| => EventoOf(sector, now, alerts[k]))
  }

  /**
   * The event tree after `es` is written, in order, at
   * /eventos/<sector>/<timestamp>: a write replaces whatever the path held.
   */
  function Stored(db: map<(string, int), Records.Evento>, es: seq<Records.Evento>): map<(string, int), Records.Evento>
  {
    if es == [] then db
    else Stored(db, es[..|es| - 1])[(es[|es| - 1].sector, es[|es| - 1].timestamp) := es[|es| - 1]]
  }

  /**
   * Every event of one reading carries the same sector and the same
   * timestamp, so all of them are written to one path and only the last
   * one survives in the database.
   */
  lemma {:induction false} OneReadingStoresOneEvent(db: map<(string, int), Records.Evento>, sector: string, now: int,
                                                    alerts: seq<Alert>)
    requires alerts != []
    ensures Stored(db, EventosFor(sector, now, alerts)) == db[(sector, now) := EventoOf(sector, now, alerts[|alerts| - 1])]
  {
    var n := |alerts| - 1;
    var es := EventosFor(sector, now, alerts);
    assert es[..n] == EventosFor(sector, now, alerts[..n]);
    if n > 0 {
      OneReadingStoresOneEvent(db, sector, now, alerts[..n]);
    } else {
      assert es[..n] == [];
    }
  }

  /** The events of a reading with the fixed thresholds. */
  function EventsOf(devices: map<string, map<string, bool>>, l: Latches, r: Reading, now: int, lastReading: int): seq<Records.Evento>
  {
    EventosFor(r.office, now, StepAlerts(l, r, Switch(devices, r.office, "luces"), Switch(devices, r.office, "aire"),
                                         Umbrales, now - lastReading))
  }

  function LatchesAfter(devices: map<string, map<string, bool>>, l: Latches, r: Reading, now: int, lastReading: int): Latches
  {
    NextLatches(l, r, Switch(devices, r.office, "luces"), Switch(devices, r.office, "aire"), Umbrales, now - lastReading)
  }

  /** A sector whose read failed is seen by the detector with both devices on. */
  lemma FailedReadTurnsBothOn(devices: map<string, map<string, bool>>, sector: string, f: Fetched)
    requires !f.Found?
    ensures Switch(devices[sector := DevicesRead(f)], sector, "luces")
    ensures Switch(devices[sector := DevicesRead(f)], sector, "aire")
  {
  }

  /**
   * With presence and both devices on, a dark office raises a lights-on
   * event of severity 1; the events of a reading are never of another
   * severity than 1, 2 or 3.
   */
  lemma PresenceLightsUp(devices: map<string, map<string, bool>>, l: Latches, r: Reading, now: int, lastReading: int)
    requires r.presence && Switch(devices, r.office, "luces") && !l.light
    ensures var es := EventsOf(devices, l, r, now, lastReading);
      && |es| >= 1 && es[0].motivo == "Luces encendidas" && es[0].tipo == 1
      && forall k | 0 <= k < |es| :: 1 <= es[k].tipo <= 3
  {
    var lightsOn, acOn := Switch(devices, r.office, "luces"), Switch(devices, r.office, "aire");
    var alerts := StepAlerts(l, r, lightsOn, acOn, Umbrales, now - lastReading);
    assert LightPart(l.light, r, lightsOn) == [LightsOn];
    assert alerts[0] == LightsOn;
  }

  class Edge {
    var estadosDispositivos: map<string, map<string, bool>>
    const mapaEstados: StateTable

    /** Sectors A, B and C start with both devices on; no office has a state yet. */
    constructor ()
      ensures forall s :: s in estadosDispositivos <==> s in Sectores
      ensures forall s | s in estadosDispositivos :: estadosDispositivos[s] == BothOn
      ensures fresh(mapaEstados) && mapaEstados.estados == map[]
    {
      estadosDispositivos := map[];
      mapaEstados := new StateTable();
      new;
      for i := 0 to |Sectores|
        invariant forall s :: s in estadosDispositivos <==> s in Sectores[..i]
        invariant forall s | s in estadosDispositivos :: estadosDispositivos[s] == BothOn
        invariant mapaEstados.estados == map[]
      {
        estadosDispositivos := estadosDispositivos[Sectores[i] := BothOn];
      }
    }

    /**
     * One round of the periodic refresh: each sector's states are replaced
     * by what its read returned, in the sectors' order; other keys stay.
     */
    method ActualizarEstados(fetched: seq<Fetched>)
      requires |fetched| == |Sectores|
      modifies this`estadosDispositivos
      ensures forall i | 0 <= i < |Sectores| :: Sectores[i] in estadosDispositivos
                                              && estadosDispositivos[Sectores[i]] == DevicesRead(fetched[i])
      ensures forall s | s !in Sectores :: (s in estadosDispositivos <==> s in old(estadosDispositivos))
      ensures forall s | s !in Sectores && s in estadosDispositivos :: estadosDispositivos[s] == old(estadosDispositivos[s])
    {
      for i := 0 to |Sectores|
        invariant forall j | 0 <= j < i :: Sectores[j] in estadosDispositivos
                                          && estadosDispositivos[Sectores[j]] == DevicesRead(fetched[j])
        invariant forall s | s !in Sectores :: (s in estadosDispositivos <==> s in old(estadosDispositivos))
        invariant forall s | s !in Sectores && s in estadosDispositivos :: estadosDispositivos[s] == old(estadosDispositivos[s])
      {
        estadosDispositivos := estadosDispositivos[Sectores[i] := DevicesRead(fetched[i])];
      }
    }

    /** The detector with the fixed thresholds; `now` is its clock. */
    method DetectarEventos(r: Reading, st: OfficeState, now: int) returns (eventos: seq<Records.Evento>)
      modifies st
      ensures eventos == EventsOf(estadosDispositivos, old(st.Latching()), r, now, old(st.ultimaLectura))
      ensures st.Latching() == LatchesAfter(estadosDispositivos, old(st.Latching()), r, now, old(st.ultimaLectura))
      ensures st.Window() == old(st.Window())
    {
      var lightsOn := Switch(estadosDispositivos, r.office, "luces");
      var acOn := Switch(estadosDispositivos, r.office, "aire");
      var alerts := Detect(st, r, lightsOn, acOn, Umbrales, now);
      eventos := EventosFor(r.office, now, alerts);
    }

    /**
     * One reading on an office's state: accumulate, detect, and when a
     * summary is due produce it and restart the window, whatever the write
     * returns.
     */
    method Handle(st: OfficeState, r: Reading, ahora: int, nowDetect: int)
      returns (eventos: seq<Records.Evento>, resumen: Option<Records.Resumen>)
      modifies st
      ensures eventos == EventsOf(estadosDispositivos, old(st.Latching()), r, nowDetect, r.timestamp)
      ensures resumen == SummaryAt(Accumulated(old(st.Window()), r), ahora, Voltaje, CostoKwh)
      ensures st.Window() == CycleWindow(old(st.Window()), r, ahora, Voltaje, true)
      ensures st.Latching() == LatchesAfter(estadosDispositivos, old(st.Latching()), r, nowDetect, r.timestamp)
    {
      st.Accumulate(r);
      eventos := DetectarEventos(r, st, nowDetect);
      resumen := None;
      if ahora - st.ultimoResumen >= SummarySeconds {
        var res := st.GenerarResumen(ahora, Voltaje, CostoKwh);
        resumen := Some(res);
        st.ResetWindow(ahora);
      }
    }

    /** The sensor-topic callback; a message that does not decode is dropped. */
    method OnReading(payload: Option<Reading>, ahora: int, nowDetect: int)
      returns (eventos: seq<Records.Evento>, resumen: Option<Records.Resumen>)
      modifies mapaEstados, mapaEstados.estados.Values
      ensures payload.None? ==> eventos == [] && resumen == None && mapaEstados.estados == old(mapaEstados.estados)
      ensures payload.None? ==> forall st | st in old(mapaEstados.estados.Values) :: unchanged(st)
      ensures payload.Some? ==>
                var r := payload.value;
                var known := r.office in old(mapaEstados.estados);
                && r.office in mapaEstados.estados
                && mapaEstados.estados == old(mapaEstados.estados)[r.office := mapaEstados.estados[r.office]]
                && (known ==> mapaEstados.estados[r.office] == old(mapaEstados.estados[r.office]))
                && (!known ==> fresh(mapaEstados.estados[r.office]))
                && (forall st | st in old(mapaEstados.estados.Values) && st != mapaEstados.estados[r.office] :: unchanged(st))
      ensures payload.Some? ==>
                var r := payload.value;
                var known := r.office in old(mapaEstados.estados);
                var w := if known then old(mapaEstados.estados[r.office].Window()) else WindowState(0, [], [], [], 0, 0);
                var l := if known then old(mapaEstados.estados[r.office].Latching()) else Latches(false, false, None, false, false);
                var st := mapaEstados.estados[r.office];
                && eventos == EventsOf(estadosDispositivos, l, r, nowDetect, r.timestamp)
                && resumen == SummaryAt(Accumulated(w, r), ahora, Voltaje, CostoKwh)
                && st.Window() == CycleWindow(w, r, ahora, Voltaje, true)
                && st.Latching() == LatchesAfter(estadosDispositivos, l, r, nowDetect, r.timestamp)
    {
      if payload.None? {
        return [], None;
      }
      var r := payload.value;
      var st := mapaEstados.Obtener(r.office);
      eventos, resumen := Handle(st, r, ahora, nowDetect);
    }
  }
}
