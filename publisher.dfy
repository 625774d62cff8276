/**
 * The two configurable sensor simulators, mqtt/publisher/simulador_sensores.go
 * and mqtt/publisher/main.go. Every ten seconds they publish one reading
 * per known office on `oficinas/<id>/sensores`; the device states, the
 * office list and the parameters arrive on three websocket feeds.
 * simulador_sensores.go starts unconfigured, follows the working hours and
 * simulates power cuts; main.go starts with default parameters and offices
 * A, B and C and reports presence on every reading.
 */
module Publisher {
  import opened Base
  import opened Feeds
  import opened Simulation
  import opened EdgeAlerts

  /** The parameters main.go starts with. */
  const DefaultParams: Config := Config(8.0, 20.0, 25.0, 21.5, 220.0, 0.25)
  const DefaultOficinas: seq<string> := ["A", "B", "C"]

  /** The topic a reading of an office is published on. */
  function Topico(oficina: string): (t: string)
    ensures |t| == |oficina| + 18 && t[..9] == "oficinas/" && t[|t| - 9..] == "/sensores" && t[9..|t| - 9] == oficina
  {
    "oficinas/" + oficina + "/sensores"
  }

  /**
   * The device states obtenerEstadoDispositivos uses: the stored ones, or
   * both devices on when the office has none or an empty (or null) map.
   */
  function EstadoEfectivo(dispositivos: map<string, map<string, bool>>, oficina: string): (estado: map<string, bool>)
    ensures oficina in dispositivos && |dispositivos[oficina]| > 0 ==> estado == dispositivos[oficina]
    ensures !(oficina in dispositivos && |dispositivos[oficina]| > 0) ==>
              Encendido(estado, "luces") && Encendido(estado, "aire") && |estado| == 2
  {
    if oficina !in dispositivos || |dispositivos[oficina]| == 0 then BothOn else dispositivos[oficina]
  }

  /**
   * Presence as the simulator reports it when the power is on:
   * simulador_sensores.go draws it, with probability 0.95, in working
   * hours only; main.go reports it always.
   */
  predicate Presente(scheduled: bool, params: Config, t: Clock, u: real)
  {
    if scheduled then EsHorarioLaboral(t, params.horaInicio, params.horaFin) && u < ProbabilidadPresencia else true
  }

  /** Until the first configuration arrives, every working window is empty: nobody is ever present. */
  lemma UnconfiguredSeesNobody(t: Clock, u: real)
    ensures !Presente(true, ZeroConfig, t, u)
  {
  }

  /**
   * A simulator without presence publishes 0 A, which the edge detector
   * reads as a power cut: two such readings more than a minute apart
   * raise the outage alert.
   */
  lemma AbsenceLooksLikeACut(r1: Reading, r2: Reading)
    requires r1.current == 0.0 && r2.current == 0.0 && r2.timestamp - r1.timestamp > OutageSeconds
    ensures OutageStep(r2.current, r2.timestamp, OutageStep(r1.current, r1.timestamp, None).0).1
            == Some(r2.timestamp - r1.timestamp)
  {
  }

  /** What a simulator remembers between readings: device states, last temperatures and power cuts. */
  datatype SimState = SimState(dispositivos: map<string, map<string, bool>>, temperaturas: map<string, real>,
                               cortes: map<string, int>)

  /**
   * One office's reading at `t` from state `st`, and the state after it:
   * a cut may be drawn (scheduled variant), presence needs power, the
   * temperature steps, and only a present office draws current and stores
   * its effective device states.
   */
  function Simulado(scheduled: bool, params: Config, st: SimState, oficina: string, t: Clock, d: Draws): (Reading, SimState)
    requires ValidDraws(d)
  {
    var cortes := if scheduled then TrasSorteo(st.cortes, oficina, t.unix, d.corte, d.duracion) else st.cortes;
    var presencia := !(scheduled && HayCorteDeEnergia(cortes, oficina, t.unix)) && Presente(scheduled, params, t, d.presencia);
    var temperatura := TemperaturaSiguiente(st.temperaturas, oficina, d);
    var estado := EstadoEfectivo(st.dispositivos, oficina);
    var corriente := if presencia then Corriente(d, true, temperatura, params.umbralTemperaturaAC, estado) else 0.0;
    (Reading(oficina, t.unix, presencia, corriente, temperatura),
     SimState(if presencia then st.dispositivos[oficina := estado] else st.dispositivos,
              st.temperaturas[oficina := temperatura], cortes))
  }

  /** A tick over `oficinas`: each office simulated in turn from the state the previous one left, with its topic. */
  function Ronda(scheduled: bool, params: Config, st: SimState, oficinas: seq<string>, t: Clock, draws: seq<Draws>)
    : (seq<(string, Reading)>, SimState)
    requires |draws| == |oficinas| && forall k | 0 <= k < |draws| :: ValidDraws(draws[k])
  {
    if oficinas == [] then ([], st)
    else
      var prev := Ronda(scheduled, params, st, oficinas[..|oficinas| - 1], t, draws[..|draws| - 1]);
      var next := Simulado(scheduled, params, prev.1, oficinas[|oficinas| - 1], t, draws[|draws| - 1]);
      (prev.0 + [(Topico(oficinas[|oficinas| - 1]), next.0)], next.1)
  }

  /** A tick publishes one reading per office, on its topic, stamped with the tick's time, within the temperature range. */
  lemma {:induction false} RondaPublishesEveryOffice(scheduled: bool, params: Config, st: SimState, oficinas: seq<string>,
                                                     t: Clock, draws: seq<Draws>)
    requires |draws| == |oficinas| && forall k | 0 <= k < |draws| :: ValidDraws(draws[k])
    ensures var pub := Ronda(scheduled, params, st, oficinas, t, draws).0;
      && |pub| == |oficinas|
      && forall k | 0 <= k < |pub| ::
           && pub[k].0 == Topico(oficinas[k]) && pub[k].1.office == oficinas[k] && pub[k].1.timestamp == t.unix
           && TemperaturaMin <= pub[k].1.temperature <= TemperaturaMax
           && (!pub[k].1.presence ==> pub[k].1.current == 0.0)
    ensures forall o | o in oficinas :: o in Ronda(scheduled, params, st, oficinas, t, draws).1.temperaturas
    ensures forall o | o in st.temperaturas :: o in Ronda(scheduled, params, st, oficinas, t, draws).1.temperaturas
  {
    if oficinas != [] {
      var n := |oficinas| - 1;
      RondaPublishesEveryOffice(scheduled, params, st, oficinas[..n], t, draws[..n]);
      assert forall o | o in oficinas :: o in oficinas[..n] || o == oficinas[n];
    }
  }

  /** The state of one simulator process. */
  class Simulador {
    /** Working hours and power cuts (simulador_sensores.go) or always present (main.go). */
    const scheduled: bool
    var params: Config
    var dispositivos: map<string, map<string, bool>>
    var oficinas: seq<string>
    var ultimaTemperatura: map<string, real>
    const cortesEnergia: Outages

    constructor (scheduled: bool)
      ensures this.scheduled == scheduled
      ensures scheduled ==> params == ZeroConfig && oficinas == []
      ensures !scheduled ==> params == DefaultParams && oficinas == DefaultOficinas
      ensures dispositivos == map[] && ultimaTemperatura == map[]
      ensures fresh(cortesEnergia) && cortesEnergia.cortes == map[]
    {
      this.scheduled := scheduled;
      params := if scheduled then ZeroConfig else DefaultParams;
      oficinas := if scheduled then [] else DefaultOficinas;
      dispositivos := map[];
      ultimaTemperatura := map[];
      cortesEnergia := new Outages();
    }

    /** What the simulator remembers between readings. */
    function Estado(): SimState
      reads this, cortesEnergia
    {
      SimState(dispositivos, ultimaTemperatura, cortesEnergia.cortes)
    }

    /** obtenerEstadoDispositivos: returns the effective states and stores them for the office. */
    method ObtenerEstadoDispositivos(oficina: string) returns (estado: map<string, bool>)
      modifies this`dispositivos
      ensures estado == EstadoEfectivo(old(dispositivos), oficina)
      ensures dispositivos == old(dispositivos)[oficina := estado]
    {
      if oficina !in dispositivos || |dispositivos[oficina]| == 0 {
        estado := BothOn;
        dispositivos := dispositivos[oficina := estado];
      } else {
        estado := dispositivos[oficina];
      }
    }

    /** CalcularCorriente with the configured air-conditioning threshold and the effective states. */
    method CalcularCorriente(oficina: string, presencia: bool, temperatura: real, d: Draws) returns (c: real)
      requires IsDraw(d.pasiva) && IsDraw(d.activa)
      modifies this`dispositivos
      ensures c == Corriente(d, presencia, temperatura, params.umbralTemperaturaAC, EstadoEfectivo(old(dispositivos), oficina))
      ensures dispositivos == old(dispositivos)[oficina := EstadoEfectivo(old(dispositivos), oficina)]
    {
      var estado := ObtenerEstadoDispositivos(oficina);
      c := Corriente(d, presencia, temperatura, params.umbralTemperaturaAC, estado);
    }

    /** A `dispositivos` message replaces the states of the offices it names and keeps the others. */
    method ActualizarDispositivos(m: Feed<map<string, map<string, bool>>>)
      modifies this`dispositivos
      ensures !(m.Feed? && m.tipo == "dispositivos") ==> dispositivos == old(dispositivos)
      ensures m.Feed? && m.tipo == "dispositivos" ==>
                && (forall o | o in m.data :: o in dispositivos && dispositivos[o] == m.data[o])
                && (forall o | o !in m.data :: (o in dispositivos <==> o in old(dispositivos)))
                && (forall o | o !in m.data && o in dispositivos :: dispositivos[o] == old(dispositivos[o]))
    {
      if !(m.Feed? && m.tipo == "dispositivos") {
        return;
      }
      var todo := m.data.Keys;
      while todo != {}
        invariant todo <= m.data.Keys
        invariant forall o | o in m.data && o !in todo :: o in dispositivos && dispositivos[o] == m.data[o]
        invariant forall o | o !in m.data || o in todo :: (o in dispositivos <==> o in old(dispositivos))
        invariant forall o | (o !in m.data || o in todo) && o in dispositivos :: dispositivos[o] == old(dispositivos[o])
        decreases |todo|
      {
        var o :| o in todo;
        dispositivos := dispositivos[o := m.data[o]];
        todo := todo - {o};
      }
    }

    /** An `oficinas` message replaces the office list by the keys of its data. */
    method ActualizarOficinas<V>(m: Feed<map<string, V>>)
      modifies this`oficinas
      ensures !(m.Feed? && m.tipo == "oficinas") ==> oficinas == old(oficinas)
      ensures m.Feed? && m.tipo == "oficinas" ==>
                && (forall o :: o in oficinas <==> o in m.data)
                && Distinct(oficinas) && |oficinas| == |m.data|
    {
      if !(m.Feed? && m.tipo == "oficinas") {
        return;
      }
      oficinas := KeysOf(m.data);
    }

    /** A `params` message replaces the parameters; anything else leaves them. */
    method ActualizarConfiguracion(m: Feed<Config>)
      modifies this`params
      ensures params == if m.Feed? && m.tipo == "params" then m.data else old(params)
    {
      if m.Unparsable? {
        return;
      }
      if m.tipo != "params" {
        return;
      }
      params := m.data;
    }

    /**
     * SimularYPublicar for one office at `t`: draw a possible cut (in the
     * scheduled variant), report presence only with power, step the
     * temperature, and draw the current only with presence.
     */
    method SimularYPublicar(oficina: string, t: Clock, d: Draws) returns (topico: string, datos: Reading)
      requires ValidDraws(d)
      modifies this`dispositivos, this`ultimaTemperatura, cortesEnergia
      ensures topico == Topico(oficina) && datos.office == oficina && datos.timestamp == t.unix
      ensures cortesEnergia.cortes == if scheduled then TrasSorteo(old(cortesEnergia.cortes), oficina, t.unix, d.corte, d.duracion)
                                      else old(cortesEnergia.cortes)
      ensures datos.presence <==> !(scheduled && HayCorteDeEnergia(cortesEnergia.cortes, oficina, t.unix))
                                  && Presente(scheduled, params, t, d.presencia)
      ensures datos.temperature == TemperaturaSiguiente(old(ultimaTemperatura), oficina, d)
      ensures ultimaTemperatura == old(ultimaTemperatura)[oficina := datos.temperature]
      ensures datos.presence ==>
                && datos.current == Corriente(d, true, datos.temperature, params.umbralTemperaturaAC,
                                              EstadoEfectivo(old(dispositivos), oficina))
                && dispositivos == old(dispositivos)[oficina := EstadoEfectivo(old(dispositivos), oficina)]
      ensures !datos.presence ==> datos.current == 0.0 && dispositivos == old(dispositivos)
      ensures (topico, (datos, Estado())) == (Topico(oficina), Simulado(scheduled, params, old(Estado()), oficina, t, d))
    {
      var sinEnergia := false;
      if scheduled {
        cortesEnergia.PosibleCorte(oficina, t.unix, d.corte, d.duracion);
        sinEnergia := cortesEnergia.HayCorte(oficina, t.unix);
      }
      var presencia := false;
      if !sinEnergia {
        presencia := Presente(scheduled, params, t, d.presencia);
      }
      var temperatura := TemperaturaSiguiente(ultimaTemperatura, oficina, d);
      ultimaTemperatura := ultimaTemperatura[oficina := temperatura];
      var corriente := 0.0;
      if presencia {
        corriente := CalcularCorriente(oficina, presencia, temperatura, d);
      }
      topico := Topico(oficina);
      datos := Reading(oficina, t.unix, presencia, corriente, temperatura);
      assert datos == Simulado(scheduled, params, old(Estado()), oficina, t, d).0;
    }

    /**
     * One tick of the main loop: a reading for every office of the list
     * as it stood when the tick began, in list order, each simulated from
     * the state the previous one left; the new state is the one the last
     * of them left.
     */
    method Tick(t: Clock, draws: seq<Draws>) returns (publicados: seq<(string, Reading)>)
      requires |draws| == |oficinas| && forall k | 0 <= k < |draws| :: ValidDraws(draws[k])
      modifies this`dispositivos, this`ultimaTemperatura, cortesEnergia
      ensures (publicados, Estado()) == Ronda(scheduled, params, old(Estado()), oficinas, t, draws)
    {
      var copia := oficinas;
      publicados := [];
      for i := 0 to |copia|
        invariant copia == oficinas
        invariant (publicados, Estado()) == Ronda(scheduled, params, old(Estado()), copia[..i], t, draws[..i])
      {
        assert copia[..i + 1][..i] == copia[..i] && draws[..i + 1][..i] == draws[..i];
        var topico, datos := SimularYPublicar(copia[i], t, draws[i]);
        publicados := publicados + [(topico, datos)];
      }
      assert copia[..|copia|] == copia && draws[..|draws|] == draws;
    }
  }
}
