/**
 * The early edge filter, subscriber/filter.go: it copies a reading into a
 * filtered record with an over-threshold flag, and decides whether the air
 * conditioning should run.
 */
module Filter {

  datatype SensorData = SensorData(sector: string, timestamp: int, presence: bool, currentA: real, temperature: real)

  datatype FilteredData = FilteredData(sector: string, timestamp: int, presence: bool, currentA: real,
                                       alert: bool, acStatus: bool)

  /**
   * FilterData: the alert flag is set exactly when the current exceeds the
   * threshold; sector, timestamp, presence and current are copied; the AC
   * status is never set, so it keeps Go's zero value.
   */
  function FilterData(data: SensorData, threshold: real): (f: FilteredData)
    ensures f.alert <==> data.currentA > threshold
    ensures f.sector == data.sector && f.timestamp == data.timestamp
    ensures f.presence == data.presence && f.currentA == data.currentA
    ensures !f.acStatus
  {
    FilteredData(data.sector, data.timestamp, data.presence, data.currentA, data.currentA > threshold, false)
  }

  /** ShouldTurnOnAC: only with presence, and only strictly above the threshold. */
  function ShouldTurnOnAC(presence: bool, temperature: real, acThreshold: real): (on: bool)
    ensures on ==> presence
    ensures on ==> temperature > acThreshold
    ensures presence && temperature > acThreshold ==> on
  {
    presence && temperature > acThreshold
  }

  /** A reading flagged at one threshold is flagged at every lower one. */
  lemma AlertIsMonotone(data: SensorData, low: real, high: real)
    requires low <= high && FilterData(data, high).alert
    ensures FilterData(data, low).alert
  {
  }

  /** A room warm enough at one temperature is warm enough at every higher one. */
  lemma AcIsMonotone(presence: bool, t1: real, t2: real, acThreshold: real)
    requires t1 <= t2 && ShouldTurnOnAC(presence, t1, acThreshold)
    ensures ShouldTurnOnAC(presence, t2, acThreshold)
  {
  }

  /** The filtered record never carries the AC decision, even when the rule says to turn it on. */
  lemma FilterIgnoresAcDecision(data: SensorData, threshold: real, acThreshold: real)
    requires ShouldTurnOnAC(data.presence, data.temperature, acThreshold)
    ensures !FilterData(data, threshold).acStatus
  {
  }
}
