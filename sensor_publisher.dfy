/**
 * The fixed-schedule sensor simulator, mqtt/publisher/sensor_publisher.go.
 * It simulates sectors A, B and C, publishes on `office/<id>/sensors`,
 * follows the whole-hour schedule 8 to 20 on weekdays, uses a fixed 25
 * degree air-conditioning threshold, and refreshes the device states from
 * the database every few seconds with no default for a null value.
 */
module SensorPublisher {
  import opened Feeds
  import opened Simulation
  import opened EdgeAlerts
  import SensorEdge

  const Sectores: seq<string> := ["A", "B", "C"]
  const UmbralAire: real := 25.0

  /** The topic a reading of a sector is published on. */
  function Topico(sector: string): (t: string)
    ensures |t| == |sector| + 15 && t[..7] == "office/" && t[|t| - 8..] == "/sensors" && t[7..|t| - 8] == sector
  {
    "office/" + sector + "/sensors"
  }

  /**
   * obtenerEstadosDesdeFirebase: a failed read counts as both devices on;
   * a null value is kept as the empty (nil) map, so both devices read off.
   */
  function EstadosLeidos(f: Fetched): (m: map<string, bool>)
    ensures f.FetchError? ==> Encendido(m, "luces") && Encendido(m, "aire")
    ensures f.Null? ==> m == map[]
    ensures f.Found? ==> m == f.estados
  {
    match f
    case FetchError => BothOn
    case Null => map[]
    case Found(estados) => estados
  }

  /**
   * A null device state reads as both devices off here, while the edge
   * detector of sensor_edge.go, reading the same path, takes both as on.
   */
  lemma NullReadDisagreesWithEdge()
    ensures !Encendido(EstadosLeidos(Null), "luces") && !Encendido(EstadosLeidos(Null), "aire")
    ensures Encendido(SensorEdge.DevicesRead(Null), "luces") && Encendido(SensorEdge.DevicesRead(Null), "aire")
  {
  }

  /** The states CalcularCorriente reads for a sector: a missing one is Go's nil map. */
  function EstadoDe(estados: map<string, map<string, bool>>, sector: string): (m: map<string, bool>)
    ensures sector in estados ==> m == estados[sector]
    ensures sector !in estados ==> m == map[]
  {
    if sector in estados then estados[sector] else map[]
  }

  /** Presence as this simulator draws it when the power is on. */
  predicate Presente(t: Clock, u: real)
  {
    EsHorarioLaboralEntero(t) && u < ProbabilidadPresencia
  }

  /**
   * Without presence but with power the current is the passive load only:
   * never 0, so an empty sector is never taken for a power cut, and never
   * anomalous.
   */
  lemma PoweredAbsenceIsPassiveLoad(d: Draws, temperatura: real, estado: map<string, bool>)
    requires IsDraw(d.pasiva) && IsDraw(d.activa)
    ensures var c := Corriente(d, false, temperatura, UmbralAire, estado);
      c == CorrientePasiva(d.pasiva) && 0.5 <= c < AnomalousAmps
  {
  }

  /** What the simulator changes from reading to reading: the last temperatures and the power cuts. */
  datatype SimState = SimState(temperaturas: map<string, real>, cortes: map<string, int>)

  /**
   * One sector's reading at `t` from state `st` with the device states
   * `estados`: a cut may be drawn; during a cut there is neither presence
   * nor current; with power, presence follows the schedule and the
   * current is drawn either way. The temperature steps in any case.
   */
  function Simulado(estados: map<string, map<string, bool>>, st: SimState, sector: string, t: Clock, d: Draws)
    : (Reading, SimState)
    requires ValidDraws(d)
  {
    var cortes := TrasSorteo(st.cortes, sector, t.unix, d.corte, d.duracion);
    var sinEnergia := HayCorteDeEnergia(cortes, sector, t.unix);
    var presencia := !sinEnergia && Presente(t, d.presencia);
    var temperatura := TemperaturaSiguiente(st.temperaturas, sector, d);
    var corriente := if sinEnergia then 0.0 else Corriente(d, presencia, temperatura, UmbralAire, EstadoDe(estados, sector));
    (Reading(sector, t.unix, presencia, corriente, temperatura), SimState(st.temperaturas[sector := temperatura], cortes))
  }

  /** A tick over `sectores`: each simulated in turn from the state the previous one left, with its topic. */
  function Ronda(estados: map<string, map<string, bool>>, st: SimState, sectores: seq<string>, t: Clock, draws: seq<Draws>)
    : (seq<(string, Reading)>, SimState)
    requires |draws| == |sectores| && forall k | 0 <= k < |draws| :: ValidDraws(draws[k])
  {
    if sectores == [] then ([], st)
    else
      var prev := Ronda(estados, st, sectores[..|sectores| - 1], t, draws[..|draws| - 1]);
      var next := Simulado(estados, prev.1, sectores[|sectores| - 1], t, draws[|draws| - 1]);
      (prev.0 + [(Topico(sectores[|sectores| - 1]), next.0)], next.1)
  }

  /**
   * A tick publishes one reading per sector, on its topic, stamped with
   * the tick's time, within the temperature range, and a reading of 0 A
   * never reports presence.
   */
  lemma {:induction false} RondaPublishesEverySector(estados: map<string, map<string, bool>>, st: SimState,
                                                     sectores: seq<string>, t: Clock, draws: seq<Draws>)
    requires |draws| == |sectores| && forall k | 0 <= k < |draws| :: ValidDraws(draws[k])
    ensures var pub := Ronda(estados, st, sectores, t, draws).0;
      && |pub| == |sectores|
      && forall k | 0 <= k < |pub| ::
           && pub[k].0 == Topico(sectores[k]) && pub[k].1.office == sectores[k] && pub[k].1.timestamp == t.unix
           && TemperaturaMin <= pub[k].1.temperature <= TemperaturaMax
           && (pub[k].1.current == 0.0 ==> !pub[k].1.presence)
    ensures forall s | s in sectores :: s in Ronda(estados, st, sectores, t, draws).1.temperaturas
  {
    if sectores != [] {
      var n := |sectores| - 1;
      RondaPublishesEverySector(estados, st, sectores[..n], t, draws[..n]);
      assert forall s | s in sectores :: s in sectores[..n] || s == sectores[n];
    }
  }

  class Simulador {
    var estadosDispositivos: map<string, map<string, bool>>
    var ultimaTemperatura: map<string, real>
    const cortesEnergia: Outages

    /** Sectors A, B and C start with both devices on. */
    constructor ()
      ensures forall s :: s in estadosDispositivos <==> s in Sectores
      ensures forall s | s in estadosDispositivos :: estadosDispositivos[s] == BothOn
      ensures ultimaTemperatura == map[]
      ensures fresh(cortesEnergia) && cortesEnergia.cortes == map[]
    {
      estadosDispositivos := map[];
      ultimaTemperatura := map[];
      cortesEnergia := new Outages();
      new;
      for i := 0 to |Sectores|
        invariant forall s :: s in estadosDispositivos <==> s in Sectores[..i]
        invariant forall s | s in estadosDispositivos :: estadosDispositivos[s] == BothOn
        invariant ultimaTemperatura == map[] && cortesEnergia.cortes == map[]
      {
        estadosDispositivos := estadosDispositivos[Sectores[i] := BothOn];
      }
    }

    /** What the simulator changes from reading to reading. */
    function Estado(): SimState
      reads this, cortesEnergia
    {
      SimState(ultimaTemperatura, cortesEnergia.cortes)
    }

    /** One round of the periodic refresh: each sector's states become what its read returned. */
    method ActualizarEstados(fetched: seq<Fetched>)
      requires |fetched| == |Sectores|
      modifies this`estadosDispositivos
      ensures forall i | 0 <= i < |Sectores| :: Sectores[i] in estadosDispositivos
                                              && estadosDispositivos[Sectores[i]] == EstadosLeidos(fetched[i])
      ensures forall s | s !in Sectores :: (s in estadosDispositivos <==> s in old(estadosDispositivos))
      ensures forall s | s !in Sectores && s in estadosDispositivos :: estadosDispositivos[s] == old(estadosDispositivos[s])
    {
      for i := 0 to |Sectores|
        invariant forall j | 0 <= j < i :: Sectores[j] in estadosDispositivos
                                          && estadosDispositivos[Sectores[j]] == EstadosLeidos(fetched[j])
        invariant forall s | s !in Sectores :: (s in estadosDispositivos <==> s in old(estadosDispositivos))
        invariant forall s | s !in Sectores && s in estadosDispositivos :: estadosDispositivos[s] == old(estadosDispositivos[s])
      {
        estadosDispositivos := estadosDispositivos[Sectores[i] := EstadosLeidos(fetched[i])];
      }
    }

    /**
     * SimularYPublicar for one sector at `t`: during a cut there is neither
     * presence nor current; with power, presence follows the schedule and
     * the current is drawn whether or not anyone is present.
     */
    method SimularYPublicar(sector: string, t: Clock, d: Draws) returns (topico: string, datos: Reading)
      requires ValidDraws(d)
      modifies this`ultimaTemperatura, cortesEnergia
      ensures topico == Topico(sector) && datos.office == sector && datos.timestamp == t.unix
      ensures cortesEnergia.cortes == TrasSorteo(old(cortesEnergia.cortes), sector, t.unix, d.corte, d.duracion)
      ensures HayCorteDeEnergia(cortesEnergia.cortes, sector, t.unix) ==> !datos.presence && datos.current == 0.0
      ensures !HayCorteDeEnergia(cortesEnergia.cortes, sector, t.unix) ==>
                && (datos.presence <==> Presente(t, d.presencia))
                && datos.current == Corriente(d, datos.presence, datos.temperature, UmbralAire,
                                              EstadoDe(estadosDispositivos, sector))
      ensures datos.temperature == TemperaturaSiguiente(old(ultimaTemperatura), sector, d)
      ensures ultimaTemperatura == old(ultimaTemperatura)[sector := datos.temperature]
      ensures (topico, (datos, Estado())) == (Topico(sector), Simulado(estadosDispositivos, old(Estado()), sector, t, d))
    {
      cortesEnergia.PosibleCorte(sector, t.unix, d.corte, d.duracion);
      var sinEnergia := cortesEnergia.HayCorte(sector, t.unix);
      var presencia := false;
      var corriente := 0.0;
      if !sinEnergia {
        presencia := Presente(t, d.presencia);
      }
      var temperatura := TemperaturaSiguiente(ultimaTemperatura, sector, d);
      ultimaTemperatura := ultimaTemperatura[sector := temperatura];
      if !sinEnergia {
        corriente := Corriente(d, presencia, temperatura, UmbralAire, EstadoDe(estadosDispositivos, sector));
      }
      topico := Topico(sector);
      datos := Reading(sector, t.unix, presencia, corriente, temperatura);
      assert datos == Simulado(estadosDispositivos, old(Estado()), sector, t, d).0;
    }

    /**
     * One tick of the main loop: a reading for each of A, B and C, in that
     * order, each simulated from the state the previous one left; the new
     * state is the one the last of them left, and the device states are
     * only read.
     */
    method Tick(t: Clock, draws: seq<Draws>) returns (publicados: seq<(string, Reading)>)
      requires |draws| == |Sectores| && forall k | 0 <= k < |draws| :: ValidDraws(draws[k])
      modifies this`ultimaTemperatura, cortesEnergia
      ensures (publicados, Estado()) == Ronda(estadosDispositivos, old(Estado()), Sectores, t, draws)
    {
      publicados := [];
      for i := 0 to |Sectores|
        invariant (publicados, Estado()) == Ronda(estadosDispositivos, old(Estado()), Sectores[..i], t, draws[..i])
      {
        assert Sectores[..i + 1][..i] == Sectores[..i] && draws[..i + 1][..i] == draws[..i];
        var topico, datos := SimularYPublicar(Sectores[i], t, draws[i]);
        publicados := publicados + [(topico, datos)];
      }
      assert Sectores[..|Sectores|] == Sectores && draws[..|draws|] == draws;
    }
  }
}
