/**
 * What the three sensor simulators of mqtt/publisher share: working hours,
 * the temperature random walk clamped to [20, 30], the current drawn from
 * a passive load, the lights, the air conditioning and an active load, and
 * the table of power cuts. Random draws and the clock are parameters: a
 * draw of rand.Float64 is a real in [0, 1), one of rand.Intn(n) an integer
 * in [0, n).
 */
module Simulation {
  import opened Feeds
  import opened EdgeAlerts

  const TemperaturaMinBase: real := 22.0
  const TemperaturaMaxBase: real := 26.0
  const VariacionMaxTemperatura: real := 0.4
  const TemperaturaMin: real := 20.0
  const TemperaturaMax: real := 30.0
  const ConsumoLuces: real := 3.0
  const ConsumoAire: real := 10.0
  const ProbabilidadPresencia: real := 0.95
  const ProbabilidadCorte: real := 0.005
  const DuracionMinCorte: int := 2 * 60
  const DuracionMaxCorte: int := 5 * 60

  /** A value rand.Float64 can return. */
  predicate IsDraw(u: real) { 0.0 <= u < 1.0 }

  /** time.Now() as the simulators read it: Unix seconds, weekday (0 is Sunday), hour and minute. */
  datatype Clock = Clock(unix: int, weekday: nat, hour: nat, minute: nat)

  predicate ValidClock(t: Clock) { t.weekday < 7 && t.hour < 24 && t.minute < 60 }

  /** The random values one simulation step may draw, one field per call site. */
  datatype Draws = Draws(corte: real, duracion: int, presencia: real, temperaturaInicial: real, delta: real,
                         pasiva: real, activa: real)

  predicate ValidDraws(d: Draws)
  {
    && IsDraw(d.corte) && 0 <= d.duracion < DuracionMaxCorte - DuracionMinCorte + 1
    && IsDraw(d.presencia) && IsDraw(d.temperaturaInicial) && IsDraw(d.delta)
    && IsDraw(d.pasiva) && IsDraw(d.activa)
  }

  // ---------------------------------------------------------------------
  // Working hours
  // ---------------------------------------------------------------------

  predicate DiaLaborable(t: Clock) { 1 <= t.weekday <= 5 }

  /** The hour of day as the configurable simulators compute it: the minutes count as hundredths. */
  function HoraDecimal(t: Clock): real
  {
    t.hour as real + t.minute as real / 100.0
  }

  /** Monday to Friday, from `inicio` (inclusive) to `fin` (exclusive) in decimal hours. */
  predicate EsHorarioLaboral(t: Clock, inicio: real, fin: real)
  {
    DiaLaborable(t) && inicio <= HoraDecimal(t) < fin
  }

  /** Monday to Friday, whole hours 8 to 19: the fixed schedule of sensor_publisher.go. */
  predicate EsHorarioLaboralEntero(t: Clock)
  {
    DiaLaborable(t) && 8 <= t.hour < 20
  }

  /** With the default window 8.0 to 20.0, the decimal schedule is the whole-hour one. */
  lemma DefaultWindowIsWholeHours(t: Clock)
    requires ValidClock(t)
    ensures EsHorarioLaboral(t, 8.0, 20.0) <==> EsHorarioLaboralEntero(t)
  {
    assert 0.0 <= t.minute as real / 100.0 < 1.0;
    if t.hour < 8 {
      assert t.hour as real <= 7.0;
    } else if t.hour >= 20 {
      assert t.hour as real >= 20.0;
    } else {
      assert 8.0 <= t.hour as real <= 19.0;
    }
  }

  /**
   * A start written as h + m/100 opens at minute m of hour h, not at
   * minute 60 m/100: on a working day, at hour h and before the end, the
   * office is inside the window exactly from minute m on.
   */
  lemma StartOpensAtHundredths(t: Clock, h: nat, m: nat, fin: real)
    requires ValidClock(t) && DiaLaborable(t) && t.hour == h && m < 60 && (h as real) + 1.0 <= fin
    ensures EsHorarioLaboral(t, h as real + m as real / 100.0, fin) <==> t.minute >= m
  {
    assert t.minute as real / 100.0 < 1.0;
    if t.minute < m {
      assert t.minute as real / 100.0 < m as real / 100.0;
    } else {
      assert t.minute as real / 100.0 >= m as real / 100.0;
    }
  }

  /** An example: a start of 8.5 opens at 8:50, so 8:30 is still outside the window. */
  lemma HalfPastEightIsBeforeEightAndAHalf()
    ensures !EsHorarioLaboral(Clock(0, 1, 8, 30), 8.5, 20.0)
    ensures EsHorarioLaboral(Clock(0, 1, 8, 50), 8.5, 20.0)
  {
  }

  // ---------------------------------------------------------------------
  // Temperature
  // ---------------------------------------------------------------------

  /** The bound the simulated temperature never leaves. */
  function Clamp(temp: real): (t: real)
    ensures TemperaturaMin <= t <= TemperaturaMax
    ensures TemperaturaMin <= temp <= TemperaturaMax ==> t == temp
    ensures temp < TemperaturaMin ==> t == TemperaturaMin
    ensures temp > TemperaturaMax ==> t == TemperaturaMax
  {
    if temp < TemperaturaMin then TemperaturaMin else if temp > TemperaturaMax then TemperaturaMax else temp
  }

  /** The variation of one step, in [-0.4, 0.4). */
  function Delta(u: real): (d: real)
    requires IsDraw(u)
    ensures -VariacionMaxTemperatura <= d < VariacionMaxTemperatura
  {
    u * 2.0 * VariacionMaxTemperatura - VariacionMaxTemperatura
  }

  /**
   * CalcularSiguienteTemperatura: the next temperature stays in [20, 30];
   * from a temperature in range it moves by less than 0.4 degrees, and
   * away from the bounds it moves by exactly the variation.
   */
  function SiguienteTemperatura(prev: real, u: real): (t: real)
    requires IsDraw(u)
    ensures TemperaturaMin <= t <= TemperaturaMax
    ensures TemperaturaMin <= prev <= TemperaturaMax ==>
              -VariacionMaxTemperatura <= t - prev < VariacionMaxTemperatura
    ensures TemperaturaMin + VariacionMaxTemperatura <= prev <= TemperaturaMax - VariacionMaxTemperatura ==>
              t == prev + Delta(u)
  {
    Clamp(prev + Delta(u))
  }

  /** The first temperature of an office, drawn in [22, 26). */
  function TemperaturaInicial(u: real): (t: real)
    requires IsDraw(u)
    ensures TemperaturaMinBase <= t < TemperaturaMaxBase
  {
    u * (TemperaturaMaxBase - TemperaturaMinBase) + TemperaturaMinBase
  }

  /**
   * The temperature published for an office: one step from its last one,
   * or from a fresh initial draw the first time.
   */
  function TemperaturaSiguiente(ultima: map<string, real>, oficina: string, d: Draws): (t: real)
    requires IsDraw(d.temperaturaInicial) && IsDraw(d.delta)
    ensures TemperaturaMin <= t <= TemperaturaMax
    ensures oficina !in ultima ==> TemperaturaMinBase - VariacionMaxTemperatura <= t < TemperaturaMaxBase + VariacionMaxTemperatura
    ensures oficina in ultima && TemperaturaMin <= ultima[oficina] <= TemperaturaMax ==>
              -VariacionMaxTemperatura <= t - ultima[oficina] < VariacionMaxTemperatura
  {
    var prev := if oficina in ultima then ultima[oficina] else TemperaturaInicial(d.temperaturaInicial);
    SiguienteTemperatura(prev, d.delta)
  }

  // ---------------------------------------------------------------------
  // Current
  // ---------------------------------------------------------------------

  /** The passive load, in [0.5, 3). */
  function CorrientePasiva(u: real): (a: real)
    requires IsDraw(u)
    ensures 0.5 <= a < 3.0
  {
    0.5 + u * (3.0 - 0.5)
  }

  /** The active load of people at work, in [1, 7). */
  function CorrienteActiva(u: real): (a: real)
    requires IsDraw(u)
    ensures 1.0 <= a < 7.0
  {
    1.0 + u * (7.0 - 1.0)
  }

  /**
   * CalcularCorriente: the passive load always; with presence, 3 A for
   * the lights when on, 10 A for the air conditioning when on and the
   * temperature reaches the threshold, and the active load.
   */
  function Corriente(d: Draws, presencia: bool, temperatura: real, umbral: real, estado: map<string, bool>): (c: real)
    requires IsDraw(d.pasiva) && IsDraw(d.activa)
    ensures !presencia ==> 0.5 <= c < 3.0
    ensures presencia ==> 1.5 <= c
    ensures c < 10.0 + (if presencia && Encendido(estado, "luces") then ConsumoLuces else 0.0)
                     + (if presencia && temperatura >= umbral && Encendido(estado, "aire") then ConsumoAire else 0.0)
  {
    var base := CorrientePasiva(d.pasiva);
    if presencia then
      base + (if Encendido(estado, "luces") then ConsumoLuces else 0.0)
           + (if temperatura >= umbral && Encendido(estado, "aire") then ConsumoAire else 0.0)
           + CorrienteActiva(d.activa)
    else base
  }

  /** With presence, lights that are on add exactly 3 A. */
  lemma LightsAddThree(d: Draws, temperatura: real, umbral: real, estado: map<string, bool>)
    requires IsDraw(d.pasiva) && IsDraw(d.activa)
    ensures Corriente(d, true, temperatura, umbral, estado["luces" := true])
            == Corriente(d, true, temperatura, umbral, estado["luces" := false]) + ConsumoLuces
  {
  }

  /** With presence and the threshold reached, air conditioning that is on adds exactly 10 A. */
  lemma AirAddsTenWhenWarm(d: Draws, temperatura: real, umbral: real, estado: map<string, bool>)
    requires IsDraw(d.pasiva) && IsDraw(d.activa) && temperatura >= umbral
    ensures Corriente(d, true, temperatura, umbral, estado["aire" := true])
            == Corriente(d, true, temperatura, umbral, estado["aire" := false]) + ConsumoAire
  {
  }

  /** Below the threshold the air conditioning draws nothing, on or off. */
  lemma AirIdleWhenCool(d: Draws, temperatura: real, umbral: real, estado: map<string, bool>)
    requires IsDraw(d.pasiva) && IsDraw(d.activa) && temperatura < umbral
    ensures Corriente(d, true, temperatura, umbral, estado["aire" := true])
            == Corriente(d, true, temperatura, umbral, estado["aire" := false])
  {
  }

  /** Without presence the devices draw nothing: only the passive load remains. */
  lemma DevicesIdleWithoutPresence(d: Draws, temperatura: real, umbral: real, e1: map<string, bool>, e2: map<string, bool>)
    requires IsDraw(d.pasiva) && IsDraw(d.activa)
    ensures Corriente(d, false, temperatura, umbral, e1) == Corriente(d, false, temperatura, umbral, e2)
            == CorrientePasiva(d.pasiva)
  {
  }

  /**
   * A simulated current of 20 A or more needs presence, the lights on and
   * the air conditioning on and running; with the default 21.5 A threshold
   * only such readings can raise the current alert.
   */
  lemma HighCurrentNeedsEveryLoad(d: Draws, presencia: bool, temperatura: real, umbral: real, estado: map<string, bool>)
    requires IsDraw(d.pasiva) && IsDraw(d.activa)
    requires Corriente(d, presencia, temperatura, umbral, estado) >= 20.0
    ensures presencia && Encendido(estado, "luces") && Encendido(estado, "aire") && temperatura >= umbral
  {
  }

  /**
   * No simulated reading without presence looks anomalous to the edge
   * detector: the passive load stays under its 10 A limit.
   */
  lemma AbsenceNeverLooksAnomalous(r: Reading, d: Draws, umbral: real, estado: map<string, bool>)
    requires IsDraw(d.pasiva) && IsDraw(d.activa)
    requires !r.presence && (r.current == 0.0 || r.current == Corriente(d, false, r.temperature, umbral, estado))
    ensures AnomalyPart(r) == []
  {
  }

  // ---------------------------------------------------------------------
  // Power cuts
  // ---------------------------------------------------------------------

  /** HayCorteDeEnergia: an office is cut while a cut is recorded for it and its end has not passed. */
  predicate HayCorteDeEnergia(cortes: map<string, int>, oficina: string, ahora: int)
  {
    oficina in cortes && ahora <= cortes[oficina]
  }

  /**
   * PosibleCorteDeEnergia on the table: an office with any recorded cut,
   * over or not, is left alone; otherwise a draw under 0.005 records a cut
   * ending 120 to 300 seconds from now.
   */
  function TrasSorteo(cortes: map<string, int>, oficina: string, ahora: int, corte: real, duracion: int): (c: map<string, int>)
  {
    if oficina in cortes then cortes
    else if corte < ProbabilidadCorte then cortes[oficina := ahora + duracion + DuracionMinCorte]
    else cortes
  }

  /** A draw never removes or replaces a recorded cut and adds at most the drawn office. */
  lemma DrawNeverOverwrites(cortes: map<string, int>, oficina: string, ahora: int, corte: real, duracion: int)
    ensures var c := TrasSorteo(cortes, oficina, ahora, corte, duracion);
      && (forall o | o in cortes :: o in c && c[o] == cortes[o])
      && (forall o | o in c :: o in cortes || o == oficina)
  {
  }

  /** A new cut starts now and lasts between 120 and 300 seconds, during which the office is cut. */
  lemma NewCutLasts(cortes: map<string, int>, oficina: string, ahora: int, corte: real, duracion: int)
    requires 0 <= duracion < DuracionMaxCorte - DuracionMinCorte + 1
    requires oficina !in cortes && corte < ProbabilidadCorte
    ensures var c := TrasSorteo(cortes, oficina, ahora, corte, duracion);
      && oficina in c && ahora + DuracionMinCorte <= c[oficina] <= ahora + DuracionMaxCorte
      && forall s | ahora <= s <= ahora + DuracionMinCorte :: HayCorteDeEnergia(c, oficina, s)
  {
  }

  /** The cut decided by one draw still covers the instant it was drawn at. */
  lemma DrawnCutIsInForce(cortes: map<string, int>, oficina: string, ahora: int, corte: real, duracion: int)
    requires 0 <= duracion
    requires oficina !in cortes && corte < ProbabilidadCorte
    ensures HayCorteDeEnergia(TrasSorteo(cortes, oficina, ahora, corte, duracion), oficina, ahora)
  {
  }

  /** One tick's draw for an office: the instant and the two random values. */
  datatype Sorteo = Sorteo(ahora: int, corte: real, duracion: int)

  /** The table after a sequence of draws for one office, oldest first. */
  function Sorteos(cortes: map<string, int>, oficina: string, ss: seq<Sorteo>): map<string, int>
  {
    if ss == [] then cortes
    else
      var s := ss[|ss| - 1];
      TrasSorteo(Sorteos(cortes, oficina, ss[..|ss| - 1]), oficina, s.ahora, s.corte, s.duracion)
  }

  /**
   * Once an office has had a cut, its entry is never updated: every later
   * draw, whatever its values, leaves the table as it was for that office,
   * so after the first cut ends the office is never cut again.
   */
  lemma {:induction false} FirstCutIsTheLast(cortes: map<string, int>, oficina: string, ss: seq<Sorteo>)
    requires oficina in cortes
    ensures oficina in Sorteos(cortes, oficina, ss) && Sorteos(cortes, oficina, ss)[oficina] == cortes[oficina]
    ensures forall k | 0 <= k < |ss| && ss[k].ahora > cortes[oficina] ::
              !HayCorteDeEnergia(Sorteos(cortes, oficina, ss[..k + 1]), oficina, ss[k].ahora)
  {
    if ss != [] {
      FirstCutIsTheLast(cortes, oficina, ss[..|ss| - 1]);
    }
    forall k | 0 <= k < |ss| && ss[k].ahora > cortes[oficina]
      ensures !HayCorteDeEnergia(Sorteos(cortes, oficina, ss[..k + 1]), oficina, ss[k].ahora)
    {
      FirstCutIsTheLastPrefix(cortes, oficina, ss[..k + 1]);
    }
  }

  /** The first part of FirstCutIsTheLast, on its own. */
  lemma {:induction false} FirstCutIsTheLastPrefix(cortes: map<string, int>, oficina: string, ss: seq<Sorteo>)
    requires oficina in cortes
    ensures oficina in Sorteos(cortes, oficina, ss) && Sorteos(cortes, oficina, ss)[oficina] == cortes[oficina]
  {
    if ss != [] {
      FirstCutIsTheLastPrefix(cortes, oficina, ss[..|ss| - 1]);
    }
  }

  /** The power-cut table of a simulator. */
  class Outages {
    var cortes: map<string, int>

    constructor ()
      ensures cortes == map[]
    {
      cortes := map[];
    }

    predicate HayCorte(oficina: string, ahora: int)
      reads this
    {
      HayCorteDeEnergia(cortes, oficina, ahora)
    }

    /** PosibleCorteDeEnergia, drawing `corte` and, for a new cut, `duracion` from rand.Intn(181). */
    method PosibleCorte(oficina: string, ahora: int, corte: real, duracion: int)
      requires IsDraw(corte) && 0 <= duracion < DuracionMaxCorte - DuracionMinCorte + 1
      modifies this
      ensures cortes == TrasSorteo(old(cortes), oficina, ahora, corte, duracion)
    {
      if oficina in cortes {
        return;
      }
      if corte < ProbabilidadCorte {
        cortes := cortes[oficina := ahora + duracion + DuracionMinCorte];
      }
    }
  }
}
