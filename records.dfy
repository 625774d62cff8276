/**
 * Records that the edge subscriber writes to the realtime database and the
 * relay and dashboards read back: periodic summaries and events; and the
 * notice types the database is seeded with.
 */
module Records {

  /** A periodic per-office summary (kWh figures, temperatures, amounts). */
  datatype Resumen = Resumen(
    timestamp: int,
    corrienteA: real,
    consumoKvh: real,
    consumoTotalKvh: real,
    minTemp: real,
    maxTemp: real,
    tiempoPresente: int,
    montoEstimado: real,
    montoTotal: real)

  /**
   * The text of an event's detail. Three details are formatted from a
   * number; the model keeps the number instead of the rendered text.
   */
  datatype Detail =
    | Text(s: string)
    | SecondsWithoutCurrent(seconds: int)
    | SecondsSilent(seconds: int)
    | ElevatedAmps(amps: real)

  /** An event: reason, detail and a severity code (1 success, 2 error, 3 warning). */
  datatype Evento = Evento(sector: string, timestamp: int, motivo: string, detalle: Detail, tipo: int)

  /** A notice type: reason, detail and impact (1 success, 2 warning, 3 error). */
  datatype TipoAviso = TipoAviso(motivo: string, detalle: string, impacto: int)
}
