# Monitoreo-Consumo in Dafny

A model of the office energy-monitoring system Monitoreo-Consumo, with proofs about that model.

## The system

Simulated sensors publish one reading per office every ten seconds: presence, current and temperature. Edge subscribers run a detector over each reading. It raises alerts about lights, air conditioning, anomalous consumption, power cuts, a silent sensor and high current. Once a minute the subscriber writes a summary of the last window to the realtime database. A relay forwards new summaries, device states and events to browser dashboards over websockets. A server-rendered dashboard does the same by polling. Batch programs written for MPI and OpenMP analyse exported consumption data.

One Dafny module models each core source file, or each pair of near-identical files:

- `Base`: optional values, decimal key strings, and the two ways a key is read as a number (JavaScript's `Number()`, Go's `strconv.ParseInt`).
- `Records`: the summaries and events in the database, and the seeded notice types.
- `Snapshots`: the "latest record per sector" rule that the relay and the dashboard server share, stated once over a key reader.
- `Relay`: `socket.js`. The `Connection` class holds the per-connection memory: summaries seen, device states seen and the event watermark.
- `DashboardServer`: `dashboard/main.go`, the page and the three-second push loop with its per-session watermark.
- `Suggestions`, `Filter`: `dashboard/suggestions.go` and `subscriber/filter.go`.
- `EdgeAlerts`: the per-office state machine that the three edge subscribers share.
  - A pure step function specifies alerts and latches.
  - Imperative detector methods on the `OfficeState` class are proved against it.
  - The window and summary cycle is modelled too, along with the office table.
- `Feeds`: configuration, feed messages, database reads and the ids taken from a decoded object's keys.
- `EdgeSubscriber`: `mqtt/subscriber/main.go` and `mqtt/subscriber/monitoreo_consumo.go`. They differ only in the guard against an empty notice-type list.
- `SensorEdge`: `mqtt/subscriber/sensor_edge.go`, the fixed-parameter subscriber that writes events.
- `Simulation`, `Publisher`, `SensorPublisher`: the sensor simulators. These are `mqtt/publisher/simulador_sensores.go`, `mqtt/publisher/main.go` and `mqtt/publisher/sensor_publisher.go`.
- `Seeding`: `semilla_firebase.js`.
- `DashboardClient`, `CrispDm`, `Olap`: the browser dashboard's state, plus the rule-based analytics and the OLAP bookkeeping.
- `Partition`, `MpiAnalysis`, `AnalysisMpi`: block and cyclic partitioning, and the two MPI programs.
- `Realtime`: the OpenMP stream processor.

Where the code's own comments and its behaviour disagree, the model follows the behaviour:

- A summary is due every 60 s. The comments say every five minutes (`mqtt/subscriber/monitoreo_consumo.go:445`, `mqtt/subscriber/sensor_edge.go:198` and `:340`).
- Silence is measured as the age of the current message. The reading is accumulated before detection runs, so the silent-sensor check compares the reading's own timestamp.
- The working-hours check of `simulador_sensores.go` reads the minutes as hundredths of an hour.

Some consequences of the code are proved and stated here. They are not bugs with an evident intended fix:

- A summary that fails to be saved is counted again in the next one (`EdgeAlerts.UnsavedSummaryCountsWindowAgain`).
- An expired power-cut entry is never removed, so it blocks every later cut in that office (`Simulation.FirstCutIsTheLast`).
- The simulator publishes 0 A when nobody is present, and the edge reads that as a cut (`Publisher.AbsenceLooksLikeACut`).
- Notice ids are assigned by position in the notice-type list, so a list in another order mislabels them (`Seeding.PositionalIdsCanMislabel`).
- The events that one reading raises share the path /eventos/<sector>/<timestamp>, so each overwrites the one before and only the last is kept (`SensorEdge.OneReadingStoresOneEvent`).
- A device record that reads as null is seen differently by the two fixed-schedule processes (`SensorPublisher.NullReadDisagreesWithEdge`):
  - `sensor_publisher.go` sees both devices off;
  - `sensor_edge.go` falls back to both on.
- In the browser's analytics:
  - the efficiency score exceeds 100 for any consumption below the ideal (`CrispDm.Score`);
  - the peak hours 18 and 19 also fall in the night shift (`Olap.BucketsOverlap`).
- The browser shows an event code that carries a suffix with low priority (`DashboardClient.SuffixedIdsLosePriority`).


## Model

| member | source | states |
|---|---|---|
| Snapshots.LatestUnique | socket.js:27-33 | at most one position of a sector's subtree satisfies the keep-the-first-greatest-key rule, so the record the scan keeps is determined by the subtree |
| Snapshots.LatestPerSectorUnique | socket.js:21-39 | two result maps that both obey the per-sector selection rule are equal |
| Snapshots.LatestInSector | socket.js:25-36 | the scan of one subtree returns nothing exactly when no key reads as a positive number, and otherwise the record under the greatest such key, the first of equal keys winning |
| Snapshots.LatestPerSector | socket.js:21-39 | the result holds exactly the sectors that have a positive key, each mapped to its latest record |
| Relay.Tipo | socket.js:120-147 | every message the relay sends is tagged "resumenes", "eventos" or "dispositivos" |
| Relay.FiltrarUltimoResumenPorSector | socket.js:21-39 | keys are read with Number(), so a non-numeric key counts as 0 and is never kept; the result obeys the per-sector latest-record rule |
| Relay.ObjetosIguales | socket.js:42-52 | the shallow comparison answers true exactly when both records are absent or both are present and equal |
| Relay.IsDeviceChange | socket.js:71-77 | a sector counts as changed exactly when it was never seen or its record differs from the remembered one |
| Relay.DeviceChangesCharacterised | socket.js:68-80 | any map holding exactly the changed sectors with their incoming records is the device change set |
| Relay.DeviceChangesIdempotent | socket.js:68-80 | once a device snapshot has been recorded, the same snapshot produces no changes |
| Relay.SummaryChangesIdempotent | socket.js:54-66 | once a summary snapshot has been recorded, the same snapshot produces no changes |
| Relay.SummaryDeliveries | socket.js:112-122 | a run of summary snapshots yields one delivery per snapshot |
| Relay.DeliveriesNewerThanMemory | socket.js:58-62 | a delivered summary of a remembered sector is strictly newer than the remembered one |
| Relay.DeliveriesStrictlyIncrease | socket.js:54-66 | on one connection a sector is delivered again only with a strictly greater timestamp than every earlier delivery of it |
| Relay.Values | socket.js:86-89 | the events of one sector are taken in key order, one per entry |
| Relay.AtOrAfterCounts | socket.js:92 | the filter keeps every occurrence of an event stamped at or after the watermark and drops every other event |
| Relay.AtOrAfterMembers | socket.js:92 | an event is kept exactly when it is in the batch and stamped at or after the watermark |
| Relay.FlattenMembers | socket.js:84-90 | the flattened list holds exactly the events stored under some sector and key |
| Relay.MaxTimestamp | socket.js:132 | Math.max of the batch is one of its timestamps and no timestamp exceeds it |
| Relay.NextWatermark | socket.js:131-132 | after a batch the watermark is past every forwarded timestamp |
| Relay.WatermarkAdvances | socket.js:129-132 | filtering and advancing never moves the watermark back, and a non-empty batch moves it forward |
| Relay.FiltrarEventosNuevos | socket.js:83-94 | the nested loops return the flattened events stamped at or after the watermark, in order |
| Relay.Connection.constructor | socket.js:103-105 | a connection starts with empty memories and its watermark 180 s before the current second (floor of the milliseconds over 1000) |
| Relay.Connection.ObtenerCambiosResumenes | socket.js:54-66 | returns the sectors that are new or strictly newer than remembered and adds them to the connection's memory |
| Relay.Connection.ObtenerCambiosDispositivos | socket.js:68-80 | returns the sectors whose device record is new or differs and adds them to the connection's memory |
| Relay.Connection.OnResumenes | socket.js:112-122 | an empty snapshot sends nothing and changes nothing; otherwise the changed sectors are recorded and sent only when the socket is open and there is at least one |
| Relay.Connection.OnEventos | socket.js:125-137 | an empty snapshot changes nothing; otherwise the new events are sent when the socket is open, and the watermark moves past the newest of them whether or not the socket is open |
| Relay.Connection.OnDispositivos | socket.js:140-149 | an empty snapshot sends nothing and changes nothing; otherwise the changed device records are recorded and sent when the socket is open and at least one changed |
| Relay.Connection.Close | socket.js:151-156 | after the socket closes nothing more is sent |
| DashboardServer.LatestResumenes | dashboard/main.go:103-121 | keys are read with strconv.ParseInt, so a key that does not parse is skipped; the result holds each sector that has a positive key, mapped to the record under its greatest key |
| DashboardServer.InsertDesc | dashboard/main.go:141-143 | inserting an event into a list sorted newest first keeps it sorted and adds exactly that event |
| DashboardServer.SortByTimestampDesc | dashboard/main.go:141-143 | the events come out sorted newest first and are a permutation of the input |
| DashboardServer.Lines | dashboard/main.go:151-152 | one page line per event, carrying its timestamp, sector and reason |
| DashboardServer.FormatNewest | dashboard/main.go:146-153 | the lines of the first ten events of the sorted list, or of all of them when there are fewer |
| DashboardServer.ShownAreNewest | dashboard/main.go:141-153 | every event left off the page is at most as new as each of the ten shown |
| DashboardServer.FetchDashboardData | dashboard/main.go:91-160 | a failed summaries read gives an empty page; a failed events read gives threshold 5.0 and the summaries; otherwise the ten newest events of a descending sort are added |
| DashboardServer.RunningMax | dashboard/main.go:217-221 | the watermark after a scan is at least its start and at least every scanned timestamp |
| DashboardServer.RunningMaxAttained | dashboard/main.go:217-221 | the watermark ends at its start or at one of the scanned timestamps |
| DashboardServer.EmittedAsWrittenBounds | dashboard/main.go:214-224 | as written, every selected event is newer than the starting watermark and no newer than the final one |
| DashboardServer.EmittedAsWrittenIncreasing | dashboard/main.go:214-224 | as written, the selected events have strictly increasing timestamps in enumeration order |
| DashboardServer.AsWrittenLosesEvent | dashboard/main.go:214-224 | events at seconds 5 then 3 from watermark 0: only the first is sent, the watermark becomes 5, and the event at second 3 is never sent by any later tick |
| DashboardServer.NothingAtOrBelowWatermark | dashboard/main.go:217 | as written, an event no newer than the watermark a tick starts from is not selected in that tick |
| DashboardServer.SelectionStep | dashboard/main.go:216-222 | scanning one more event appends it to the as-written selection exactly when it beats the running watermark, and to the corrected selection exactly when it beats the starting one |
| DashboardServer.NewEventsAsWritten | dashboard/main.go:214-224 | the loop as written returns the as-written selection and the running maximum |
| DashboardServer.SectorAsWritten | dashboard/main.go:216-223 | the inner loop over one sector continues the as-written selection over the events seen so far |
| DashboardServer.AboveExact | dashboard/main.go:214-224 | the corrected selection keeps every occurrence of each event newer than the starting watermark and nothing else |
| DashboardServer.NewEvents | dashboard/main.go:214-224 | the corrected loop returns every event newer than the starting watermark, in order, and the same final watermark |
| DashboardServer.SectorAbove | dashboard/main.go:216-223 | the corrected inner loop continues the selection over the events seen so far |
| DashboardServer.PushSession.constructor | dashboard/main.go:172 | a session starts with watermark 0 |
| DashboardServer.PushSession.Step | dashboard/main.go:174-240 | a failed read skips the tick and changes nothing; otherwise the latest summaries and the events selected as written (each compared against the watermark as raised so far in the loop) are sent, the watermark becomes the running maximum, and a failed write ends the session |
| EdgeAlerts.Index | mqtt/subscriber/main.go:216-266 | the ten alerts take the positions 0 to 9 of the notice-type id list, in the order the detector checks them |
| EdgeAlerts.Switch | mqtt/subscriber/main.go:198-216 | a device switch reads as on exactly when the office and the device are present and set; a missing entry reads as off |
| EdgeAlerts.SwitchStep | mqtt/subscriber/main.go:215-240 | the remembered state becomes condition-and-switch; a change is reported exactly when the state changes: on when it turns on, off-by-state when the switch is off while the condition holds, off-by-condition when the condition stops holding |
| EdgeAlerts.LatchStep | mqtt/subscriber/main.go:257-270 | a latch follows its condition and fires exactly when the condition holds and the latch was down |
| EdgeAlerts.OutageStep | mqtt/subscriber/main.go:246-255 | an outage is reported exactly when current is at most 0, the timer is running and more than 60 s have passed, with those seconds, and the timer is then cleared; current above 0 clears it; the first zero reading starts it |
| EdgeAlerts.LightPart | mqtt/subscriber/main.go:215-226 | the lights check raises at most one of alerts 0 to 2, exactly when the remembered light state changes |
| EdgeAlerts.AcPart | mqtt/subscriber/main.go:228-240 | the air-conditioning check raises at most one of alerts 3 to 5, exactly when the remembered state changes |
| EdgeAlerts.AnomalyPart | mqtt/subscriber/main.go:242-244 | alert 6 is raised exactly when nobody is present and the current is above 10 A |
| EdgeAlerts.OutagePart | mqtt/subscriber/main.go:246-255 | alert 7 is raised exactly when the outage timer expires |
| EdgeAlerts.SilencePart | mqtt/subscriber/main.go:257-263 | alert 8 is raised exactly when more than 60 s of silence meet a sensor not yet marked down |
| EdgeAlerts.CurrentPart | mqtt/subscriber/main.go:265-270 | alert 9 is raised exactly when the current exceeds the threshold and the high-current latch was down |
| EdgeAlerts.NextLatches | mqtt/subscriber/main.go:215-270 | after a step the light latch is presence-and-switch, the air latch is wanted-and-switch, the sensor is down exactly when silence exceeds 60 s, and the current latch is current above the threshold |
| EdgeAlerts.SwitchAlertsBand | mqtt/subscriber/main.go:215-240 | the lights and air-conditioning checks raise at most two alerts, in check order, all among 0 to 5 |
| EdgeAlerts.SupplyAlertsBand | mqtt/subscriber/main.go:242-270 | the supply checks raise at most four alerts, in check order, all among 6 to 9 |
| EdgeAlerts.StepAlertsInCheckOrder | mqtt/subscriber/main.go:193-273 | one detector step raises at most one alert per check, in check order, six at most |
| EdgeAlerts.StepRaisesAnomaly | mqtt/subscriber/main.go:242-244 | a step raises the anomalous-consumption alert exactly when current above 10 A is drawn in an empty office |
| EdgeAlerts.StepRaisesSilence | mqtt/subscriber/main.go:257-263 | a step raises the silent-sensor alert exactly when silence exceeds 60 s and the sensor was not already marked down |
| EdgeAlerts.StepRaisesHighCurrent | mqtt/subscriber/main.go:265-270 | a step raises the high-current alert exactly when the current exceeds its threshold and the latch was down |
| EdgeAlerts.StepReportsLightChange | mqtt/subscriber/main.go:215-226 | a step raises a lights alert exactly when the remembered light state changes |
| EdgeAlerts.StepReportsAcChange | mqtt/subscriber/main.go:228-240 | a step raises an air-conditioning alert exactly when the remembered air-conditioning state changes |
| EdgeAlerts.LatchFires | mqtt/subscriber/main.go:257-270 | a run of conditions gives one firing decision per reading |
| EdgeAlerts.RaisedLatchNeedsReset | mqtt/subscriber/main.go:258-262 | a latch that starts raised fires again only after its condition has been false |
| EdgeAlerts.LatchFiresOncePerExcursion | mqtt/subscriber/main.go:265-270 | between two alerts of one latch its condition was false at least once |
| EdgeAlerts.WindowKwhIsEnergy | mqtt/subscriber/main.go:298-307 | the window's kWh is the sum of the currents times the voltage times ten seconds, over 3600 and 1000 |
| EdgeAlerts.Lowest | mqtt/subscriber/main.go:314-321 | the temperature scan's minimum is at most the sentinel and at most every reading |
| EdgeAlerts.Highest | mqtt/subscriber/main.go:314-321 | the temperature scan's maximum is at least the sentinel and at least every reading |
| EdgeAlerts.LowestAttained | mqtt/subscriber/main.go:314-321 | the minimum is the starting sentinel or one of the readings |
| EdgeAlerts.HighestAttained | mqtt/subscriber/main.go:314-321 | the maximum is the starting sentinel or one of the readings |
| EdgeAlerts.RoundHalfAway | mqtt/subscriber/main.go:325 | math.Round gives an integer within one half of its argument, never negative for a non-negative argument |
| EdgeAlerts.Round2 | mqtt/subscriber/main.go:325-332 | rounding to two decimals moves a value by at most 0.005 and gives a whole number of hundredths |
| EdgeAlerts.SumLoop | mqtt/subscriber/main.go:295-297 | the summing loop returns the sum of the list |
| EdgeAlerts.TemperatureRange | mqtt/subscriber/main.go:292-321 | the loop returns the scan's minimum and maximum from the sentinels 1000 and -1000 |
| EdgeAlerts.Accumulated | mqtt/subscriber/main.go:380-385 | a reading appends its current and temperature, adds ten seconds of presence when someone is present and sets the last-reading time; the history and the last summary time are kept |
| EdgeAlerts.Reset | mqtt/subscriber/main.go:401-404 | after a saved summary the window is emptied, presence is 0 and the last summary time is now; history and last reading are kept |
| EdgeAlerts.CycleKeepsWellFormed | mqtt/subscriber/main.go:380-407 | one callback keeps one temperature per current and at most ten seconds of presence per reading |
| EdgeAlerts.CycleSummary | mqtt/subscriber/main.go:396-407 | without a due summary only the reading is added; with one the history grows by the window's kWh, and the window restarts exactly when the summary was saved |
| EdgeAlerts.RunOnlyAppendsConsumos | mqtt/subscriber/main.go:309 | the consumption history is never reset: a run only appends, at most one entry per reading |
| EdgeAlerts.RunKeepsWellFormed | mqtt/subscriber/main.go:370-408 | any run of callbacks keeps the window well formed |
| EdgeAlerts.UnsavedSummaryCountsWindowAgain | mqtt/subscriber/main.go:396-407 | when a due summary is not saved the window is kept, and the next summary appends a kWh that covers the earlier readings again |
| EdgeAlerts.OfficeState.constructor | mqtt/subscriber/main.go:186 | a new office state is all zero, empty and off |
| EdgeAlerts.OfficeState.Accumulate | mqtt/subscriber/main.go:380-385 | the window becomes the accumulated window and the latches are unchanged |
| EdgeAlerts.OfficeState.ResetWindow | mqtt/subscriber/main.go:401-404 | the window becomes the reset window and the latches are unchanged |
| EdgeAlerts.OfficeState.GenerarResumen | mqtt/subscriber/main.go:285-334 | the window's kWh is appended to the history first, the summary is computed from the window and the grown history, and nothing else changes |
| EdgeAlerts.DetectLights | mqtt/subscriber/main.go:215-226 | the lights check raises the lights alert of the step and updates only the light latch |
| EdgeAlerts.DetectAc | mqtt/subscriber/main.go:228-240 | the air-conditioning check raises its alert and updates only the air latch |
| EdgeAlerts.DetectOutage | mqtt/subscriber/main.go:246-255 | the outage check raises its alert and moves only the outage timer |
| EdgeAlerts.DetectSilence | mqtt/subscriber/main.go:257-263 | the silence check raises its alert and updates only the sensor-down latch |
| EdgeAlerts.DetectCurrent | mqtt/subscriber/main.go:265-270 | the high-current check raises its alert and updates only the high-current latch |
| EdgeAlerts.DetectSwitches | mqtt/subscriber/main.go:215-240 | the lights then the air-conditioning check, with their alerts in that order |
| EdgeAlerts.DetectSupply | mqtt/subscriber/main.go:242-270 | the consumption, outage, silence and current checks, with their alerts in that order |
| EdgeAlerts.Detect | mqtt/subscriber/main.go:193-273 | the detector raises the step's alerts in check order and leaves the latches of the step, with silence measured from the last reading; the window is untouched |
| EdgeAlerts.StateTable.constructor | mqtt/subscriber/main.go:85 | the office table starts empty |
| EdgeAlerts.StateTable.Obtener | mqtt/subscriber/main.go:179-191 | a known office gets its existing state; an unknown one gets a fresh zero state that is added to the table |
| Feeds.Encendido | mqtt/publisher/simulador_sensores.go:170-173 | a device is on exactly when its key is present and true; a missing key reads as false |
| Feeds.KeysOf | mqtt/subscriber/main.go:137-140 | the ids of a decoded map are its keys, each exactly once, in the runtime's enumeration order |
| EdgeSubscriber.ExtraOf | mqtt/subscriber/main.go:243-266 | the switch notices carry no extra text, consumption and current notices carry the amps, the outage notice the seconds without current, the silence notice the seconds without response |
| EdgeSubscriber.AvisosFor | mqtt/subscriber/main.go:207-213 | the notices are well defined exactly when every alert's position exists in the id list; then the k-th notice carries the id at the k-th alert's position and the detector's clock; otherwise indexing crashes |
| EdgeSubscriber.TenIdsNeverPanic | mqtt/subscriber/main.go:193-273 | with ten notice types or more no reading crashes detection |
| EdgeSubscriber.ShortIdListPanicsOnHighCurrent | mqtt/subscriber/main.go:265-266 | with fewer than ten notice types and no early return, a reading above the current threshold with the latch down crashes detection |
| EdgeSubscriber.EmptyIdListPanicsOnAnyAlert | mqtt/subscriber/monitoreo_consumo.go:203-280 | without the empty-list guard and with no notice types, detection crashes exactly when the reading raises some alert |
| EdgeSubscriber.NoticeNamesItsCheck | mqtt/subscriber/main.go:207-266 | with distinct ids, a notice carries the i-th id exactly when it was raised by the i-th check |
| EdgeSubscriber.NoticesInRange | mqtt/subscriber/main.go:207-266 | with distinct ids, some notice has an id among positions lo to hi exactly when some alert's position is in that range |
| EdgeSubscriber.LightNoticesFollowLatch | mqtt/subscriber/main.go:215-226 | with ten distinct notice types, a notice of types 0 to 2 appears exactly when the lights latch changes |
| EdgeSubscriber.AcNoticesFollowLatch | mqtt/subscriber/main.go:228-240 | with ten distinct notice types, a notice of types 3 to 5 appears exactly when the air-conditioning latch changes |
| EdgeSubscriber.Subscriber.constructor | mqtt/subscriber/main.go:79-87 | a subscriber starts with the zero configuration, no ids, no devices, no offices and an empty office table |
| EdgeSubscriber.Subscriber.ActualizarParamsConfig | mqtt/subscriber/main.go:109-123 | a "params" message replaces the configuration; an undecodable or differently tagged message leaves it |
| EdgeSubscriber.Subscriber.ActualizarTiposAvisos | mqtt/subscriber/main.go:125-142 | a "tipos_avisos" message replaces the id list with the message's keys, each once; anything else leaves it |
| EdgeSubscriber.Subscriber.ActualizarDispositivos | mqtt/subscriber/main.go:144-158 | a "dispositivos" message replaces the device states wholesale; anything else leaves them |
| EdgeSubscriber.Subscriber.ActualizarOficinas | mqtt/subscriber/main.go:160-177 | an "oficinas" message replaces the office list with the message's keys, each once; anything else leaves it |
| EdgeSubscriber.Subscriber.DetectarAvisos | mqtt/subscriber/main.go:193-273 | detection returns the notices of the step, or a crash; on success the latches are those of the step; without notice types main.go returns at once and changes nothing; the window is untouched |
| EdgeSubscriber.Subscriber.Summarize | mqtt/subscriber/main.go:396-407 | a due summary is produced from the window, and the window restarts only if its write succeeds; the latches are untouched |
| EdgeSubscriber.Subscriber.Handle | mqtt/subscriber/main.go:380-407 | the reading is accumulated before detection, so silence is measured from the reading's own timestamp; then detection and the summary check run |
| EdgeSubscriber.Subscriber.OnReading | mqtt/subscriber/main.go:370-408 | an undecodable message changes nothing; otherwise only the reporting office's state changes, created fresh on first report, and the outcome is that of one callback on its previous state |
| SensorEdge.DevicesRead | mqtt/subscriber/sensor_edge.go:159-173 | a read that fails or finds nothing yields both devices on; a successful read yields what was stored |
| SensorEdge.EventoOf | mqtt/subscriber/sensor_edge.go:252-328 | each alert becomes an event of its sector stamped with the detector's clock; switching on is severity 1, switching off and a silent sensor severity 2, anomalous consumption, outage and high current severity 3; the outage, silence and current details carry their number |
| SensorEdge.EventosFor | mqtt/subscriber/sensor_edge.go:246-331 | one event per alert, in the alerts' order |
| SensorEdge.FailedReadTurnsBothOn | mqtt/subscriber/sensor_edge.go:164-170 | a sector whose read failed is seen by the detector with lights and air conditioning on |
| SensorEdge.PresenceLightsUp | mqtt/subscriber/sensor_edge.go:253-260 | with presence, the lights switch on and a dark office, the reading raises a lights-on event of severity 1; every event has severity 1, 2 or 3 |
| SensorEdge.Edge.constructor | mqtt/subscriber/sensor_edge.go:102-110 | sectors A, B and C start with both devices on; no office has a state yet |
| SensorEdge.Edge.ActualizarEstados | mqtt/subscriber/sensor_edge.go:180-186 | one refresh round replaces each of the three sectors' device states by its read, and leaves every other key as it was |
| SensorEdge.Edge.DetectarEventos | mqtt/subscriber/sensor_edge.go:246-331 | the detector with thresholds 25.0 degrees and 21.5 A returns the events of the step and leaves the latches of the step; the window is untouched |
| SensorEdge.Edge.Handle | mqtt/subscriber/sensor_edge.go:127-152 | the reading is accumulated, detected, and a due summary is produced and the window restarted whatever the write returns |
| SensorEdge.OneReadingStoresOneEvent | mqtt/subscriber/sensor_edge.go:134-139 | the events of one reading share their sector and timestamp, so writing them in order to /eventos/<sector>/<timestamp> leaves only the last one at that path |
| SensorEdge.Edge.OnReading | mqtt/subscriber/sensor_edge.go:115-153 | an undecodable message changes nothing; otherwise only the reporting office's state changes, created fresh on first report, with the events and summary of one callback |
| Simulation.DefaultWindowIsWholeHours | mqtt/publisher/simulador_sensores.go:112-117 | with the default window 8.0 to 20.0, the schedule that reads minutes as hundredths agrees with the whole-hour schedule of mqtt/publisher/sensor_publisher.go, Monday to Friday, from 8 to 19 |
| Simulation.HalfPastEightIsBeforeEightAndAHalf | mqtt/publisher/simulador_sensores.go:114-116 | an example: a start of 8.5 excludes 8:30 and admits 8:50 |
| Simulation.StartOpensAtHundredths | mqtt/publisher/simulador_sensores.go:112-118 | a start of h + m/100 opens at minute m of hour h on a working day: the minutes are read as hundredths of an hour |
| Simulation.Clamp | mqtt/publisher/simulador_sensores.go:131-136 | the temperature is kept in [20, 30]: unchanged inside, and set to the bound it crosses outside |
| Simulation.Delta | mqtt/publisher/simulador_sensores.go:129 | the variation of one step lies in [-0.4, 0.4) |
| Simulation.SiguienteTemperatura | mqtt/publisher/simulador_sensores.go:128-138 | the next temperature is in [20, 30]; from one in range it moves by less than 0.4; away from the bounds it moves by exactly the variation |
| Simulation.TemperaturaInicial | mqtt/publisher/simulador_sensores.go:260-263 | an office's first temperature is drawn in [22, 26) |
| Simulation.TemperaturaSiguiente | mqtt/publisher/simulador_sensores.go:260-265 | the published temperature is in [20, 30]; the first one of an office lies within 0.4 of [22, 26); later ones move by less than 0.4 from the last |
| Simulation.CorrientePasiva | mqtt/publisher/simulador_sensores.go:167 | the passive load lies in [0.5, 3) |
| Simulation.CorrienteActiva | mqtt/publisher/simulador_sensores.go:176 | the active load lies in [1, 7) |
| Simulation.Corriente | mqtt/publisher/simulador_sensores.go:160-180 | without presence only the passive load flows; with presence at least 1.5 A flow, and less than 10 A beyond the lights' 3 A and the air conditioning's 10 A where those are drawn |
| Simulation.LightsAddThree | mqtt/publisher/simulador_sensores.go:169-172 | with presence, lights that are on add exactly 3 A |
| Simulation.AirAddsTenWhenWarm | mqtt/publisher/simulador_sensores.go:173-175 | with presence and the threshold reached, air conditioning that is on adds exactly 10 A |
| Simulation.AirIdleWhenCool | mqtt/publisher/simulador_sensores.go:173-175 | below the threshold the air conditioning's state changes nothing |
| Simulation.DevicesIdleWithoutPresence | mqtt/publisher/simulador_sensores.go:167-179 | without presence the current is the passive load, whatever the device states |
| Simulation.HighCurrentNeedsEveryLoad | mqtt/publisher/simulador_sensores.go:160-180 | a current of 20 A or more needs presence, both devices on and the threshold reached |
| Simulation.AbsenceNeverLooksAnomalous | mqtt/publisher/simulador_sensores.go:271-274 | a reading without presence, either 0 A or the passive load, never raises the edge detector's anomalous-consumption alert |
| Simulation.DrawNeverOverwrites | mqtt/publisher/simulador_sensores.go:147-157 | a draw never removes or changes a recorded cut and adds at most the drawn office |
| Simulation.NewCutLasts | mqtt/publisher/simulador_sensores.go:152-156 | a new cut is recorded for an office without one when the draw is under 0.005, and ends 120 to 300 seconds from now |
| Simulation.DrawnCutIsInForce | mqtt/publisher/simulador_sensores.go:141-156 | the office is cut at the instant its cut was drawn |
| Simulation.FirstCutIsTheLast | mqtt/publisher/simulador_sensores.go:141-157 | once an office has a recorded cut the entry never changes, so after that cut ends the office is never cut again |
| Simulation.FirstCutIsTheLastPrefix | mqtt/publisher/simulador_sensores.go:147-150 | any number of later draws leave an office's recorded cut as it was |
| Simulation.Outages.constructor | mqtt/publisher/simulador_sensores.go:88-89 | the cut table starts empty |
| Simulation.Outages.PosibleCorte | mqtt/publisher/simulador_sensores.go:147-157 | the table after one call is the table function of one draw |
| Suggestions.GenerateSuggestions | dashboard/suggestions.go:9-24 | with presence the lights and then the air-conditioning advice come first, without it the single saving message; the high-consumption advice is last exactly when the current exceeds 3 A; one to three messages |
| Filter.FilterData | subscriber/filter.go:20-29 | the alert is set exactly when the current exceeds the threshold; sector, timestamp, presence and current are copied; the AC status stays false |
| Filter.ShouldTurnOnAC | subscriber/filter.go:31-33 | true exactly with presence and a temperature strictly above the threshold |
| Filter.AlertIsMonotone | subscriber/filter.go:21 | a reading flagged at one threshold is flagged at every lower one |
| Filter.AcIsMonotone | subscriber/filter.go:32 | a decision to turn the AC on holds at every higher temperature |
| Filter.FilterIgnoresAcDecision | subscriber/filter.go:20-33 | the filtered record never carries the AC decision, even when the rule says to turn it on |
| Publisher.Topico | mqtt/publisher/simulador_sensores.go:275 | the topic is `oficinas/`, the office id and `/sensores`, and the id can be read back from it |
| Publisher.EstadoEfectivo | mqtt/publisher/simulador_sensores.go:93-109 | an office with stored, non-empty states uses them; one with none, or with a null or empty map, uses lights and air conditioning on |
| Publisher.UnconfiguredSeesNobody | mqtt/publisher/simulador_sensores.go:112-124 | before any configuration arrives the working window is 0 to 0, so no reading ever reports presence |
| Publisher.AbsenceLooksLikeACut | mqtt/publisher/simulador_sensores.go:267-270 | the 0 A this simulator publishes without presence, twice more than a minute apart, raises the edge detector's outage alert |
| Publisher.Simulador.constructor | mqtt/publisher/main.go:34-44 | simulador_sensores.go starts with zero parameters and no offices, main.go with its default parameters and offices A, B and C; no device states, temperatures or cuts |
| Publisher.Simulador.ObtenerEstadoDispositivos | mqtt/publisher/simulador_sensores.go:93-109 | returns the effective states and stores them for the office, changing no other office |
| Publisher.Simulador.CalcularCorriente | mqtt/publisher/simulador_sensores.go:160-180 | the current for the configured air-conditioning threshold and the office's effective states, which are stored |
| Publisher.Simulador.ActualizarDispositivos | mqtt/publisher/simulador_sensores.go:183-199 | a well-formed `dispositivos` message sets every office it names and leaves every other one; any other message changes nothing |
| Publisher.Simulador.ActualizarOficinas | mqtt/publisher/simulador_sensores.go:202-219 | a well-formed `oficinas` message makes the office list exactly the keys of its data, each once; any other message changes nothing |
| Publisher.Simulador.ActualizarConfiguracion | mqtt/publisher/simulador_sensores.go:222-242 | a well-formed `params` message replaces the parameters; any other message changes nothing |
| Publisher.Simulador.SimularYPublicar | mqtt/publisher/simulador_sensores.go:245-288 | one reading, on the office's topic, with the reading and new state of Simulado: the scheduled variant may draw a cut first; presence only with power and (scheduled) in working hours with the 0.95 draw, or (main.go) always; the next temperature is stored; the current is drawn only with presence and is 0 otherwise |
| Publisher.Simulador.Tick | mqtt/publisher/simulador_sensores.go:340-349 | the readings and the new device states, temperatures and cuts are those of simulating the offices of the list as the tick found it one after another, each from the state the previous one left |
| Publisher.RondaPublishesEveryOffice | mqtt/publisher/simulador_sensores.go:245-288 | a tick publishes one reading per office, in list order, on the office's topic, stamped with the tick's time, temperature in [20, 30], 0 A without presence; every office then has a temperature and none loses its own |
| SensorPublisher.Topico | mqtt/publisher/sensor_publisher.go:215 | the topic is `office/`, the sector id and `/sensors`, and the id can be read back from it |
| SensorPublisher.EstadosLeidos | mqtt/publisher/sensor_publisher.go:70-84 | a failed read gives lights and air conditioning on; a null value gives the empty map; a found value is kept |
| SensorPublisher.NullReadDisagreesWithEdge | mqtt/publisher/sensor_publisher.go:70-84 | a null device record reads as both devices off here and as both on in mqtt/subscriber/sensor_edge.go |
| SensorPublisher.EstadoDe | mqtt/publisher/sensor_publisher.go:136 | a sector's stored states, or the empty map for a sector never stored |
| SensorPublisher.PoweredAbsenceIsPassiveLoad | mqtt/publisher/sensor_publisher.go:130-155 | without presence but with power the current is the passive load, at least 0.5 A and under the 10 A anomaly limit |
| SensorPublisher.Simulador.constructor | mqtt/publisher/sensor_publisher.go:248-256 | exactly sectors A, B and C have states, each both devices on; no temperatures and no cuts yet |
| SensorPublisher.Simulador.ActualizarEstados | mqtt/publisher/sensor_publisher.go:91-96 | one refresh round sets each of A, B and C to what its read returned and leaves every other key untouched |
| SensorPublisher.Simulador.SimularYPublicar | mqtt/publisher/sensor_publisher.go:177-220 | one reading, on the sector's topic, with the reading and new state of Simulado: one cut draw comes first; during a cut there is neither presence nor current; with power, presence follows the whole-hour schedule and the 0.95 draw, and the current is drawn whether or not anyone is present; the next temperature is stored |
| SensorPublisher.Simulador.Tick | mqtt/publisher/sensor_publisher.go:264-268 | the readings and the new temperatures and cuts are those of simulating A, B and C one after another, each from the state the previous one left; the device states are only read |
| SensorPublisher.RondaPublishesEverySector | mqtt/publisher/sensor_publisher.go:177-220 | a tick publishes one reading per sector, in order, on the sector's topic, stamped with the tick's time, temperature in [20, 30]; a 0 A reading has no presence; every sector then has a temperature |
| CrispDm.AnomaliasDe | resources/assets/crisp-dm-analytics.js:303-336 | at most three anomalies, all naming the office and stamped now: zero consumption exactly for zero consumption with active time, overload exactly above 20 A, statistical exactly when the detector answered, carrying its answer |
| CrispDm.AnomalyRulesAreExact | resources/assets/crisp-dm-analytics.js:300-337 | over all offices, a zero-consumption or overload anomaly is reported for an office exactly when one of its entries meets that rule |
| CrispDm.Ultimas | resources/assets/crisp-dm-analytics.js:339 | the last fifty entries, or all of them when there are fewer |
| CrispDm.HistoryKeepsTheNewest | resources/assets/crisp-dm-analytics.js:339 | the history never exceeds fifty entries and, for a batch of at most fifty, ends with the whole batch |
| CrispDm.Score | resources/assets/crisp-dm-analytics.js:244 | the score is never negative, is 0 exactly from twice the ideal 2.5 kWh up, and exceeds 100 exactly below the ideal |
| CrispDm.Mejora | resources/assets/crisp-dm-analytics.js:246 | the improvement is never negative and positive exactly above the ideal |
| CrispDm.Grade | resources/assets/crisp-dm-analytics.js:254-258 | A+ up to 0.8, A up to 1.0, B up to 1.2, C up to 1.5 and D above, each band exactly |
| CrispDm.EfficiencyGrade | resources/assets/crisp-dm-analytics.js:252-259 | the grade of the consumption over the ideal; with a zero ideal, A+ exactly for a negative consumption and D otherwise, as an infinite or NaN ratio compares |
| CrispDm.GradeIsMonotone | resources/assets/crisp-dm-analytics.js:252-259 | a larger ratio never earns a better grade |
| CrispDm.GradeAtTheIdeal | resources/assets/crisp-dm-analytics.js:241-245 | against the 2.5 kWh ideal, A+ exactly up to 2 kWh and D exactly above 3.75 kWh |
| CrispDm.RecomendacionesDe | resources/assets/crisp-dm-analytics.js:264-295 | every recommendation names the office; high current exactly above 15 A, high temperature exactly above 26 degrees, low efficiency exactly for a score under 70; in that order |
| CrispDm.LowEfficiencyThreshold | resources/assets/crisp-dm-analytics.js:285-286 | the low-efficiency recommendation fires exactly above 3.25 kWh |
| CrispDm.RecommendationsNameInputOffices | resources/assets/crisp-dm-analytics.js:261-298 | every recommendation names an office of the input |
| CrispDm.Icono | resources/assets/crisp-dm-analytics.js:389-398 | the mapped icon of a type, or "lightbulb" |
| CrispDm.IconsOfTheKnownTypes | resources/assets/crisp-dm-analytics.js:389-398 | an example over the fixed table: each recommendation type has its own icon, and the statistical anomaly gets the default |
| CrispDm.ClusterSizes | resources/assets/crisp-dm-analytics.js:419-427 | cluster c holds the count divided by k elements, plus one for the first count modulo k clusters |
| CrispDm.ClusterPositions | resources/assets/crisp-dm-analytics.js:422-424 | element i lands at position i / k of cluster i % k: nothing is lost and the order is kept |
| CrispDm.ClustersAreBalanced | resources/assets/crisp-dm-analytics.js:419-427 | two clusters differ in size by at most one |
| CrispDm.KMeansClustering | resources/assets/crisp-dm-analytics.js:419-427 | with k > 0, k clusters, cluster c holding the elements at indices congruent to c, in order; with k == 0 and any element, a failure |
| CrispDm.Analytics.constructor | resources/assets/crisp-dm-analytics.js:6 | the anomaly history starts empty |
| CrispDm.Analytics.DetectAnomalies | resources/assets/crisp-dm-analytics.js:300-341 | returns the batch of the rules office by office, and the history becomes the last fifty of history and batch |
| DashboardClient.Agregado | resources/assets/dashboard-enhanced.js:1219-1224 | the event goes on top, the old list follows, and the last one is dropped once the list passes ten; from at most ten, the ten newest |
| DashboardClient.BatchKeepsTheTenNewest | resources/assets/dashboard-enhanced.js:170-177 | from at most ten events, a batch leaves exactly the ten newest of the batch, last event on top, over the old list |
| DashboardClient.StatusClass | resources/assets/dashboard-enhanced.js:473-478 | critical exactly above 15 A, warning exactly above 10 A up to 15 A, optimal otherwise; a missing current counts as 0 |
| DashboardClient.StatusText | resources/assets/dashboard-enhanced.js:480-485 | the labels of the same three bands |
| DashboardClient.StatusClassMatchesText | resources/assets/dashboard-enhanced.js:473-485 | the class and the label of a current always name the same band |
| DashboardClient.EventoClase | resources/assets/dashboard-enhanced.js:1230-1238 | danger exactly for the ids 6 to 9, warning exactly for 2, 3 and 5, info otherwise |
| DashboardClient.EventoPrioridad | resources/assets/dashboard-enhanced.js:1240-1244 | high, medium and low for the same three groups of ids |
| DashboardClient.EventoTipo | resources/assets/dashboard-enhanced.js:1286-1290 | error, warning and success for the same three groups of ids |
| DashboardClient.EventClassifiersAgree | resources/assets/dashboard-enhanced.js:1230-1290 | the class, the priority and the toast type of an event always name the same group |
| DashboardClient.BeforeDash | resources/assets/dashboard-enhanced.js:1282 | the id's part before its first dash, which holds no dash |
| DashboardClient.TipoBase | resources/assets/dashboard-enhanced.js:1282 | the code looked up: a missing id gives "0"; otherwise the part before the dash, or "0" when that is empty |
| DashboardClient.EventoMensaje | resources/assets/dashboard-enhanced.js:1265-1284 | the message of the base code, or "Evento del sistema", then a space and the extra text |
| DashboardClient.SuffixedIdsLosePriority | resources/assets/dashboard-enhanced.js:1231-1283 | any id made of a known code, a dash and a suffix reads with its code's message but is shown as low-priority information, because the priority lists compare whole ids |
| DashboardClient.EfficiencyClass | resources/assets/dashboard-enhanced.js:731-736 | excellent from 90, good from 80, average from 60, poor below, each band exactly (the later of the two definitions, which wins) |
| DashboardClient.EfficiencyClassIsMonotone | resources/assets/dashboard-enhanced.js:731-736 | a higher efficiency never gets a worse class |
| DashboardClient.TrimStart | resources/assets/dashboard-enhanced.js:1409 | a suffix of the text, starting with no blank |
| DashboardClient.TrimEnd | resources/assets/dashboard-enhanced.js:1409 | a prefix of the text, ending with no blank |
| DashboardClient.Upper | resources/assets/dashboard-enhanced.js:1409 | the same length, each character upper-cased |
| DashboardClient.ValidNamesAreNormal | resources/assets/dashboard-enhanced.js:1409-1412 | a name the pattern accepts is unchanged by trimming and upper-casing |
| DashboardClient.NormalizingIsIdempotent | resources/assets/dashboard-enhanced.js:1409-1412 | an accepted name is a fixed point of normalizing |
| DashboardClient.Dashboard.constructor | resources/assets/dashboard-enhanced.js:2-5 | no summaries, no device states and no events |
| DashboardClient.Dashboard.HandleResumenes | resources/assets/dashboard-enhanced.js:160-162 | each office of the message gets its summary; every other office is left as it was |
| DashboardClient.Dashboard.HandleDispositivos | resources/assets/dashboard-enhanced.js:179-181 | each office of the message gets its whole device record; every other office is left as it was |
| DashboardClient.Dashboard.AgregarEvento | resources/assets/dashboard-enhanced.js:1194-1228 | the list becomes the event on top of the old list, kept to ten |
| DashboardClient.Dashboard.HandleAvisos | resources/assets/dashboard-enhanced.js:170-177 | an array adds each event in order; anything else changes nothing |
| DashboardClient.Dashboard.ToggleDispositivo | resources/assets/dashboard-enhanced.js:547-560 | the office's record is created if missing and only the named device is set; every other device and office is kept |
| DashboardClient.Dashboard.AgregarOficina | resources/assets/dashboard-enhanced.js:1406-1449 | an invalid name or an existing summary changes nothing; otherwise the office gets a zeroed summary, both devices on and an office-added event |
| Olap.Turno | resources/assets/olap-multidimensional.js:645-649 | morning exactly for hours 6 to 11, afternoon exactly for 12 to 17, night for every other hour |
| Olap.HoraPico | resources/assets/olap-multidimensional.js:651-655 | peak exactly for 9 to 11 and 17 to 19, valley exactly for 1 to 5, normal otherwise |
| Olap.Periodo | resources/assets/olap-multidimensional.js:657-660 | weekend exactly for days 0 and 6, working day for every other value |
| Olap.BucketsOverlap | resources/assets/olap-multidimensional.js:645-655 | valley hours are night hours, and the peak hours 18 and 19 are night hours too |
| Olap.Departamento | resources/assets/olap-multidimensional.js:662-665 | A, B and C from the table, every other office Operaciones |
| Olap.Seccion | resources/assets/olap-multidimensional.js:667-670 | A, B and C from the table, every other office Soporte |
| Olap.UnlistedOfficesGetDefaults | resources/assets/olap-multidimensional.js:43-46 | an example over the fixed tables: offices D and E, listed in the location dimension, fall to the defaults |
| Olap.TimeLevel | resources/assets/olap-multidimensional.js:672-686 | years 2024 and 2025, months 1 to 12, days 1 to 31, hours 0 to 23, and nothing for any other level |
| Olap.HoursHaveShifts | resources/assets/olap-multidimensional.js:26-30 | every hour value lies in [0, 24), and six of them are morning hours |
| Olap.DayTextIsDecimal | resources/assets/olap-multidimensional.js:641 | a day renders as its decimal digits |
| Olap.DayTextInjective | resources/assets/olap-multidimensional.js:641 | two days with the same rendering are the same day |
| Olap.SplitAtBar | resources/assets/olap-multidimensional.js:642 | when the part before a '\|' holds none, the first '\|' splits the key back into its parts |
| Olap.ParteCancels | resources/assets/olap-multidimensional.js:641 | two coordinates of the same dimension and level with the same rendering have the same value |
| Olap.CombinationKeysAreInjective | resources/assets/olap-multidimensional.js:639-643 | the key of a grid cell determines its day, office and category |
| Olap.GridDecode | resources/assets/olap-multidimensional.js:179-189 | index j of the grid is day d + 1, office o and category c with j = 20 d + 4 o + c |
| Olap.GridKeysAreDistinct | resources/assets/olap-multidimensional.js:157-167 | the 620 cells of the grid have pairwise distinct keys, so no initial cell overwrites another |
| Olap.GridAt | resources/assets/olap-multidimensional.js:179-189 | day d + 1, office o and category c sit at index 20 d + 4 o + c |
| Olap.GenerateDimensionCombinations | resources/assets/olap-multidimensional.js:170-192 | the grid: days 1 to 31, then offices A to E, then the four categories, nested in that order |
| Olap.CeldasKeys | resources/assets/olap-multidimensional.js:157-167 | a key holds a cell exactly when some combination has that key |
| Olap.CeldasAreEmpty | resources/assets/olap-multidimensional.js:161-166 | no initial cell holds a measure |
| Olap.CeldasOnePerCombination | resources/assets/olap-multidimensional.js:157-167 | with distinct keys there is one cell per combination, holding that combination |
| Olap.InitialCubeHas620Cells | resources/assets/olap-multidimensional.js:141-167 | after initialization the cube has 620 empty cells, one per grid combination, and none populated |
| Olap.Cube.constructor | resources/assets/olap-multidimensional.js:143-151 | no cells and zero counters |
| Olap.Cube.InitializeCubeStructure | resources/assets/olap-multidimensional.js:141-155 | the cells are those of the grid, with the time set and zero counters |
| Olap.Cube.UpdateCubeMetadata | resources/assets/olap-multidimensional.js:692-697 | the time, the number of cells and the number of cells holding a measure, which never exceeds the number of cells |
| Partition.BlockBounds | backend/mpi/mpi_analysis.c:46-48 | every rank's block [start, end) is well formed and inside [0, count) |
| Partition.BlocksAreAdjacent | backend/mpi/mpi_analysis.c:46-48 | the first block starts at 0, the last ends at the count, and each block ends where the next begins |
| Partition.BlocksAreOrdered | backend/mpi/mpi_analysis.c:46-48 | a lower rank's block ends before a higher rank's starts |
| Partition.BlockOwner | backend/mpi/mpi_analysis.c:46-48 | every index below the count lies in some rank's block |
| Partition.BlockOwnerUnique | backend/mpi/mpi_analysis.c:46-48 | ... and in only one |
| Partition.BlockLength | backend/mpi/mpi_analysis.c:46-48 | every block has chunk = count / size elements, and the last also takes count % size more |
| Partition.StrideStep | backend/mpi/mpi_analysis.c:118 | from an index of rank r, the loop's next index i + size is again rank r's, and no index in between is |
| Partition.StrideStart | backend/mpi/mpi_analysis.c:118 | the loop of rank r starts at its first index: no smaller index is rank r's |
| MpiAnalysis.CalculateEfficiency | backend/mpi/mpi_analysis.c:37-42 | 0 with no active time; otherwise 100 less ten times the consumption per unit of active time, clamped to [0, 100] |
| MpiAnalysis.EfficiencyFallsWithConsumption | backend/mpi/mpi_analysis.c:37-42 | with the same positive active time, more consumption never gives more efficiency |
| MpiAnalysis.OptimalMeansUnderTwoPerUnit | backend/mpi/mpi_analysis.c:82 | an office counts as optimal exactly when it uses less than 2 per unit of active time |
| MpiAnalysis.BoundsOfTheBlock | backend/mpi/mpi_analysis.c:66-71 | the running maximum, starting at 0, bounds every consumption from above and is 0 or one of them; the running minimum, starting at 1e9, bounds them from below and is 1e9 or one of them |
| MpiAnalysis.CountersCountTheirOffices | backend/mpi/mpi_analysis.c:76-84 | the alert and optimal counters are the numbers of offices that raise an alert (above 15 A or above 2 of consumption) and that are optimal |
| MpiAnalysis.EfficiencySumBounds | backend/mpi/mpi_analysis.c:73-74 | the efficiency sum lies between 0 and 100 per office |
| MpiAnalysis.AccumulatedAppend | backend/mpi/mpi_analysis.c:88-96 | running the loop over two consecutive parts gives the reduction of their two partial results |
| MpiAnalysis.AnalyzeBlock | backend/mpi/mpi_analysis.c:45-85 | the loop of one rank leaves the totals of exactly that rank's block |
| MpiAnalysis.ReducedPrefix | backend/mpi/mpi_analysis.c:88-96 | reducing ranks 0 .. k - 1 gives the totals of the offices up to the end of rank k - 1's block |
| MpiAnalysis.ReductionCoversEveryOffice | backend/mpi/mpi_analysis.c:88-96 | the reduction over all ranks is the loop over every office |
| MpiAnalysis.AverageAsWrittenDropsOtherRanks | backend/mpi/mpi_analysis.c:101 | two ranks and two offices with no consumption and one unit of active time: the code reports 50, the mean of their efficiencies is 100 |
| MpiAnalysis.RanksDoNotChangeTheResult | backend/mpi/mpi_analysis.c:45-104 | however many ranks share the work, rank 0 reports what one pass over all offices gives |
| MpiAnalysis.ResultCountsEveryOffice | backend/mpi/mpi_analysis.c:88-102 | total consumption and cost are over every office, CO2 is half the consumption, and the counters count every alerting and every optimal office |
| MpiAnalysis.ResultBoundsEveryOffice | backend/mpi/mpi_analysis.c:95-100 | the reported maximum and minimum bound every office's consumption |
| MpiAnalysis.AverageIsTheMeanEfficiency | backend/mpi/mpi_analysis.c:98-103 | the corrected average is the mean efficiency over all offices, in [0, 100], and missing only with no offices |
| MpiAnalysis.NearestIsTheFirstClosest | backend/mpi/mpi_analysis.c:119-128 | the picked centroid is the closest, and the lowest-indexed among equally close ones, whenever one is closer than 1e9; otherwise cluster 0 is kept |
| MpiAnalysis.NearestCentroid | backend/mpi/mpi_analysis.c:119-128 | the inner loop returns the nearest centroid of the specification |
| MpiAnalysis.ChangedStep | backend/mpi/mpi_analysis.c:130-133 | one visit of the assignment loop adds at most its own index to the changed positions |
| MpiAnalysis.AssignClusters | backend/mpi/mpi_analysis.c:118-134 | rank r's loop puts every office of index congruent to r in its nearest cluster, leaves every other entry, and counts exactly the entries it changed |
| MpiAnalysis.Recomputed | backend/mpi/mpi_analysis.c:149-153 | three centroids |
| MpiAnalysis.MeanLiesAmongMembers | backend/mpi/mpi_analysis.c:149-153 | when every member of a non-empty cluster consumes between lo and hi, so does its new centroid |
| MpiAnalysis.SumClusters | backend/mpi/mpi_analysis.c:141-147 | two fresh three-slot arrays holding each cluster's consumption sum and member count |
| MpiAnalysis.RecomputeCentroids | backend/mpi/mpi_analysis.c:140-154 | each non-empty cluster's centroid becomes its members' mean; an empty cluster keeps its centroid |
| MpiAnalysis.AssignAllRanks | backend/mpi/mpi_analysis.c:117-137 | corrected: with every office taking its owning rank's value, all ranks' loops together put every office in its nearest cluster, and report no change exactly when the array is unchanged |
| MpiAnalysis.NearestBelowClusters | backend/mpi/mpi_analysis.c:122-128 | every cluster the assignment picks is 0, 1 or 2 |
| MpiAnalysis.ConsumptionClustering | backend/mpi/mpi_analysis.c:107-160 | corrected: one to ten rounds; afterwards every office is in the cluster nearest the last round's centroids, and when a round after the first changed nothing those centroids are the means of their clusters |
| MpiAnalysis.MaxInto | backend/mpi/mpi_analysis.c:137 | MPI_MAX of one more copy: every entry becomes the larger of the two |
| MpiAnalysis.MergedRound | backend/mpi/mpi_analysis.c:117-137 | the merged array has one entry per office |
| MpiAnalysis.NoLocalChange | backend/mpi/mpi_analysis.c:129-132 | a rank counts no change exactly when every office it owns was already in its nearest cluster |
| MpiAnalysis.ReduceCopies | backend/mpi/mpi_analysis.c:117-137 | the ranks' loops on private copies, merged with MPI_MAX: with one rank each office takes its nearest cluster, with more the larger of its old and its nearest; no change is counted exactly when every office was in its nearest cluster |
| MpiAnalysis.AssignAllRanksAsWritten | backend/mpi/mpi_analysis.c:117-137 | as written, one round leaves the merged round in the array, and reports no change exactly when the array already held every office's nearest cluster |
| MpiAnalysis.ConsumptionClusteringAsWritten | backend/mpi/mpi_analysis.c:107-160 | as written except that the loop tests the total of the ranks' change counts: one to ten rounds; clusters stay among the three; with one rank every office ends in its nearest cluster; with more no cluster index ever goes down and each ends at least its nearest; an early stop means every office is in its nearest cluster |
| MpiAnalysis.LocalCountsDisagree | backend/mpi/mpi_analysis.c:114 | two ranks and consumptions [2.4, 0.1] from the zeroed array: in round 1 rank 0's loop counts one change (office 0 to cluster 2) and rank 1's none, so the ranks' own loop tests part ways |
| MpiAnalysis.ClusteringAsWrittenStrandsOffices | backend/mpi/mpi_analysis.c:107-160 | two ranks and consumptions [2.4, 2.4, 10, 10, 1.1, 1.1]: after the first round the array [2, 2, 2, 2, 1, 1] and the centroids [0.5, 1.1, 6.2] are a fixed point of the merged round, each round still counting changes, though the offices at 2.4 are nearer cluster 1; one rank moves them |
| AnalysisMpi.LocalEfficiency | backend/mpi/analysis_mpi.c:13-23 | the rank's block lies in the data, its local sum is the sum of the block, and its local optimum is 2 per reading of the block |
| AnalysisMpi.ReducedSumsPrefix | backend/mpi/analysis_mpi.c:25-27 | reducing ranks 0 .. k - 1 gives the sum and the optimum of the readings up to the end of rank k - 1's block |
| AnalysisMpi.Percentage | backend/mpi/analysis_mpi.c:29-31 | missing exactly when the total is 0, where C divides by zero; otherwise the percentage times the total is 100 times the optimum |
| AnalysisMpi.EfficiencyIsOptimalOverActual | backend/mpi/analysis_mpi.c:13-33 | whatever the number of ranks, rank 0 reports 2 per reading over the total consumption, as a percentage |
| AnalysisMpi.OptimalReadingsScore100 | backend/mpi/analysis_mpi.c:13-33 | readings that all consume exactly 2 give an efficiency of 100 |
| AnalysisMpi.WholePercentage | backend/mpi/analysis_mpi.c:30 | a positive amount over itself is 100 percent |
| AnalysisMpi.Flags | backend/mpi/analysis_mpi.c:93 | one flag per reading |
| AnalysisMpi.DetectAnomaliesParallel | backend/mpi/analysis_mpi.c:35-43 | every reading of the rank's block is flagged 1 above the threshold and 0 otherwise; every other entry keeps its value |
| AnalysisMpi.NonZeroListsTheFlags | backend/mpi/analysis_mpi.c:97-104 | the list is strictly ascending and holds exactly the positions with a non-zero flag |
| AnalysisMpi.ReportAnomalies | backend/mpi/analysis_mpi.c:97-106 | every flagged position, in order, and their number |
| AnalysisMpi.AnomalyDetectionAsWritten | backend/mpi/analysis_mpi.c:92-107 | rank 0 reports from an array in which only its own block was checked |
| AnalysisMpi.AnomalyDetection | backend/mpi/analysis_mpi.c:92-107 | the corrected report, from an array in which every rank's block was checked |
| AnalysisMpi.ReportListsEveryAnomaly | backend/mpi/analysis_mpi.c:92-107 | the corrected report lists, in ascending order, exactly the readings above 15 A |
| AnalysisMpi.AsWrittenMissesOtherRanks | backend/mpi/analysis_mpi.c:93-104 | two ranks and the currents [0, 20]: the code reports no anomaly, where the reading at position 1 exceeds 15 A |
| Realtime.Divide | backend/openmp/realtime_processing.cpp:29 | a non-zero denominator gives a number that times the denominator is the numerator; a zero one gives NaN exactly for 0 over 0, and an infinity otherwise |
| Realtime.MinimumIsLeast | backend/openmp/realtime_processing.cpp:81-88 | the minimum is one of the readings and none is below it |
| Realtime.MaximumIsGreatest | backend/openmp/realtime_processing.cpp:90-97 | the maximum is one of the readings and none is above it |
| Realtime.GetStreamMin | backend/openmp/realtime_processing.cpp:81-88 | the scan returns the minimum of the stream |
| Realtime.GetStreamMax | backend/openmp/realtime_processing.cpp:90-97 | the scan returns the maximum of the stream |
| Realtime.NormalizedLiesInUnitInterval | backend/openmp/realtime_processing.cpp:28-29 | where the stream has a range every reading normalizes into [0, 1], its minimum to 0 and its maximum to 1; a flat stream normalizes to NaN throughout |
| Realtime.UnitQuotient | backend/openmp/realtime_processing.cpp:29 | a part of a positive range over the range lies in [0, 1] |
| Realtime.ApplySmoothing | backend/openmp/realtime_processing.cpp:99-110 | the loop returns the sum of the window [index - window / 2, index + window / 2], clipped to the stream, over its count |
| Realtime.SmoothingWindowHoldsTheIndex | backend/openmp/realtime_processing.cpp:102-103 | for a window of at least 0 the averaged range is inside the stream and holds the index, so it is never empty |
| Realtime.SumBounds | backend/openmp/realtime_processing.cpp:105-108 | a sum of readings in [lo, hi] lies between lo and hi times their number |
| Realtime.SmoothedLiesInTheWindowRange | backend/openmp/realtime_processing.cpp:99-110 | a smoothed reading is a number between any bounds of the readings of its window |
| Realtime.MeanOfBounded | backend/openmp/realtime_processing.cpp:109 | the mean of a non-empty sequence lies between any bounds of its elements |
| Realtime.SmoothingKeepsAConstant | backend/openmp/realtime_processing.cpp:99-110 | smoothing leaves a constant stream as it is |
| Realtime.LineSumsStep | backend/openmp/realtime_processing.cpp:118-125 | one more point adds x, y, x y and x x to the four sums |
| Realtime.LineSumsOfFive | backend/openmp/realtime_processing.cpp:115-125 | over five points the sum of x is 10 and of x x is 30, whatever the readings |
| Realtime.CalculateTrend | backend/openmp/realtime_processing.cpp:112-129 | the loop returns the trend: 0 before position 5, the least-squares slope through the five readings before otherwise |
| Realtime.SlopeWeights | backend/openmp/realtime_processing.cpp:127 | the slope weighs the five readings -2, -1, 0, 1, 2 over 10 |
| Realtime.SlopeOfTheSums | backend/openmp/realtime_processing.cpp:127 | the denominator is always 50, so the slope never divides by zero |
| Realtime.TrendOfALine | backend/openmp/realtime_processing.cpp:112-129 | five readings on a line a + b x give the trend b |
| Realtime.RisingReadingsTrendUpward | backend/openmp/realtime_processing.cpp:112-129 | readings that never fall across the window give a trend of at least 0 |
| Realtime.TrendReadsOnlyTheFiveBefore | backend/openmp/realtime_processing.cpp:118-120 | two streams that agree on the five readings before the index have the same trend there |
| Realtime.ProcessDataStream | backend/openmp/realtime_processing.cpp:23-38 | a result of the stream's length: normalized, smoothed over five or trended at each position by the operation's own function, all zeros for any other operation |
| Realtime.SmoothedStreamIsFinite | backend/openmp/realtime_processing.cpp:31 | smoothing by the window of five never divides by zero |
| Seeding.SeedsOnlyAbsentPaths | semilla_firebase.js:60-94 | each of the three paths keeps what it held if it existed, gets its default if it was absent and its step succeeded, and stays absent otherwise; no other path changes |
| Seeding.SeedingIsIdempotent | semilla_firebase.js:60-94 | after a fully successful run a second run changes nothing |
| Seeding.FailureDoesNotSkipLaterSteps | semilla_firebase.js:60-82 | a failed first step loses only its own path: the other two are seeded as in a successful run |
| Seeding.DefaultNoticeKeys | semilla_firebase.js:17-31 | thirteen default notice types, keyed "0" to "12" |
| Seeding.DefaultNoticeImpacts | semilla_firebase.js:17-31 | every default notice type has impact 1, 2 or 3 |
| Seeding.DefaultOffices | semilla_firebase.js:33-58 | the default offices are A, B and C, active, with no notices or summaries and both devices on |
| Seeding.SeededParamsAreThePublisherDefaults | semilla_firebase.js:8-15 | the seeded parameters are those mqtt/publisher/main.go starts with |
| Seeding.TypesFollowAlertOrder | semilla_firebase.js:18-27 | notice type k names the edge detector's alert of index k with the reason mqtt/subscriber/sensor_edge.go writes, and for the seven alerts without a number the same detail |
| Seeding.OtroOrdenEnumeratesTheKeys | semilla_firebase.js:17-31 | the order with "1" before "0" lists each seeded type once, so Go's map enumeration may produce it |
| Seeding.PositionalIdsCanMislabel | semilla_firebase.js:18-19 | an example: with that enumeration the lights-on alert is filed under type "0", whose reason is lights off |
| Seeding.Database.constructor | semilla_firebase.js:3-6 | the database holds the given tree |
| Seeding.Database.SembrarRuta | semilla_firebase.js:60-70 | one guarded step: read the path, write the default only where it did not exist, and a failure is swallowed |
| Seeding.Database.InicializarBaseDeDatos | semilla_firebase.js:3-97 | the three guarded steps, params, notice types and offices, in order |
| Base.DecimalString | socket.js:28 | a digit string whose base-ten value is the number, one digit exactly below 10 |
| Base.DecimalStringInjective | socket.js:28 | distinct numbers render differently |
| Base.JsNumber | socket.js:28 | Number() of a digit-string key gives its decimal value and reads a rendered number back; other strings are taken as not a number (a narrowing) |
| Base.GoParseInt | dashboard/main.go:109 | strconv.ParseInt in base 10 only yields signed 64-bit values and reads any rendered number in range back |
| Base.JsKeyNumber | socket.js:28-30 | never negative, and positive only for a digit string |
| Base.GoKeyNumber | dashboard/main.go:109-113 | a non-zero value is the key's parsed value |

## Left out

- Rendering: the DOM, charts, toasts and theme switching (`theme-toggle.js`) are not modelled. Only the state behind them is.
- Network and database I/O: Firebase, MQTT and websocket calls become method parameters (the value read, whether a write succeeded) or the messages a method returns.
- Files not part of this model: `dashboard.js`, `config/firebase-config.js`, `dashboard/config.go`, `subscriber/main.go`. Each is either plumbing or the connection setup of another process.
- Listener lifecycle in `socket.js`: detaching the database listeners on close is not modelled. Close only stops sending, and the incoming websocket message handler does nothing.
- Concurrency: Go goroutines, tickers and mutexes are modelled as one callback at a time.
- MPI collectives: they are modelled as the ranks running one after another, with the rank as a parameter.
  - The reductions are folds over the ranks.
  - The clustering pass's `MPI_Allreduce(MPI_MAX)` of the ranks' private copies is modelled as a fold of entry-wise maxima (`MpiAnalysis.ReduceCopies`). In the code each rank loops on its own `local_changes`. The model stops when the total over the ranks is zero, which is when every rank stops.
  - Deadlock is not modelled. A rank that counted no change leaves the loop while others still call the collectives; the model runs all ranks on instead (see MpiAnalysis.ConsumptionClusteringAsWritten below).
- OpenMP: the parallel loops run sequentially.
- Floating point: C, C++, Go and JavaScript doubles are exact reals.
  - Only `Realtime` keeps NaN and the infinities apart, as the results of a division by zero.
  - `AnalysisMpi.Percentage` returns None where C divides by zero.
  - Rounding to two decimals is written out where the code rounds a stored number (the summaries' figures). Text formatted with `%.2f` is not modelled; see EdgeSubscriber.ExtraOf and SensorEdge.EventoOf below.
- JSON parsing and printing in the MPI and OpenMP mains are not modelled: they are I/O and formatting.
- `calculateAdvancedStatsParallel` (`backend/openmp/realtime_processing.cpp:41-78`) is left out. It is floating-point statistics output (a global mean and variance), not a decision the code takes. Its division by a zero element count is not modelled either.
- CRISP-DM analytics: the model training and evaluation phases are left out.
  - The regression cannot be modelled as written: `trainRegressionModel` and `dataPreparation` use `calculateRSquared` and `cleanAndNormalize` (`resources/assets/crisp-dm-analytics.js:115`, `:71`), which that file never defines.
  - MAE and RMSE only score those predictions. They are floating-point output with no decision behind them.
  - The statistical anomaly detector calls `statisticalAnomalyDetection` (`resources/assets/crisp-dm-analytics.js:142`), which the file does not define either. Its verdict is therefore a parameter.
- OLAP engine:
  - slice, dice, roll-up, drill-down, pivot and the MDX evaluation are left out;
  - so are adding data points and mapping them to dimensions;
  - these call helpers that `olap-multidimensional.js` never defines (`matchesDimension`, `executeMDXAxis`).
- Randomness and the clock: each draw of `rand.Float64`, `rand.Intn` or `Math.random`, and each reading of the current time, is a parameter constrained to its range.
- SensorEdge: `sensor_edge.go` does not compile as given. It reads `datos.Sector` from the reading (`mqtt/subscriber/sensor_edge.go:47`, `:123`), but the `Sector` fields of `Evento` and `Resumen` are commented out (lines 20 and 31) while `ev.Sector` and `resumen.Sector` are used (lines 137 and 145). The model keeps the sector in both records, as the code that uses it needs, and passes it to the detector separately.
- Feeds.KeysOf: Go's map enumeration order is arbitrary, and this member states only that the ids are the map's keys, each once, not any particular order.
- Publisher: the `DetectarPresencia` of `mqtt/publisher/main.go` always answers true, and the model keeps it so rather than simulating presence.
- Base.JsNumber: this is Number() only for keys made of decimal digits. JavaScript also reads leading and trailing white space, a sign, a fraction, an exponent and hexadecimal (" 5", "+5", "1.5", "1e3", "0x1A"). The model reports those keys as not a number.
- Base.JsKeyNumber: it inherits JsNumber's narrowing, so keys such as "1e3" or "0x1A" read as 0 here but not in JavaScript.
- DashboardClient.Upper: this upper-cases ASCII letters only. toUpperCase also maps the other letters of Unicode, including the length-changing ones ("ß" becomes "SS", "ı" becomes "I").
- DashboardClient.Dashboard.AgregarOficina: it inherits Upper's narrowing. A name such as "straße" upper-cases to "STRASSE" and is accepted by the code, but the model rejects it.
- DashboardClient.TrimStart, DashboardClient.TrimEnd: these strip exactly the characters of String.prototype.trim (`DashboardClient.IsSpace`). They follow the white-space and line-terminator list of the ECMAScript standard, take the space separators as a fixed list, and do not track later Unicode revisions of that category.
- MpiAnalysis.ConsumptionClusteringAsWritten: its loop runs while the total of the ranks' change counts is positive. In the C each rank tests only its own `local_changes` (`backend/mpi/mpi_analysis.c:114`), and that count is never reduced. When the ranks' counts differ, the C deadlocks and this member describes a run the C never finishes. Example: two ranks and consumptions [2.4, 0.1]. In round 1 rank 0 moves office 0 to cluster 2 while rank 1 changes nothing, so rank 1 leaves the loop and rank 0 blocks in the next `MPI_Allreduce` (`MpiAnalysis.LocalCountsDisagree`, and the Findings row for `:114`).
- EdgeSubscriber.ExtraOf, SensorEdge.EventoOf (`Records.Detail`): the notices and events carry the raw amps or seconds. The Go formats them as text: `"Consumo: %.2f A"` and the "… %d segundos" notices (`mqtt/subscriber/main.go:243-266`, `mqtt/subscriber/monitoreo_consumo.go:252-278`), and the details of `mqtt/subscriber/sensor_edge.go:292-320`. The wording and the two-decimal rounding of that text are not modelled.
- CrispDm.Analytics.DetectAnomalies: one clock reading `ahora` stamps every anomaly of a batch. `resources/assets/crisp-dm-analytics.js:310`, `:321` and `:331` call `Date.now()` once per push, so the stamps of one batch can differ there.

## Findings

| source | as written | input that shows it | evidently intended | confidence | as-written member | corrected member |
|---|---|---|---|---|---|---|
| dashboard/main.go:214-224 | the watermark is raised inside the loop, so an event enumerated after a newer one is compared against the newer timestamp and skipped for good | watermark 0, events at seconds 5 then 3: only the event at 5 is sent, the watermark becomes 5 and the event at 3 is never sent | send every event newer than the watermark the tick started from, then raise the watermark to the newest | not executed | DashboardServer.AsWrittenLosesEvent | DashboardServer.NewEvents |
| backend/mpi/mpi_analysis.c:98-103 | rank 0 divides its own local efficiency sum by the global office count | two ranks and two offices, each with consumption 0 and active time 1 (efficiency 100 each): the average reported is 50 | the reduced efficiency sum over the global count | not executed | MpiAnalysis.AverageAsWrittenDropsOtherRanks | MpiAnalysis.AverageIsTheMeanEfficiency |
| backend/mpi/analysis_mpi.c:93-104 | rank 0 reports from its own flag array, in which only its own block was checked; the other ranks' flags are never gathered | two ranks and currents [0.0, 20.0]: no anomaly is reported, though position 1 is above 15 A | gather every rank's flags before the report | not executed | AnalysisMpi.AsWrittenMissesOtherRanks | AnalysisMpi.ReportListsEveryAnomaly |
| backend/mpi/mpi_analysis.c:117-137 | each rank assigns its own offices in a private copy of the array and the copies are merged with MPI_MAX, so an office can keep a larger old cluster index than its owner just chose | two ranks, consumptions [2.4, 2.4, 10, 10, 1.1, 1.1]: from the second round on the array stays [2, 2, 2, 2, 1, 1] with centroids [0.5, 1.1, 6.2], though the offices at 2.4 are nearest cluster 1 and every round counts them as changed | each office takes the cluster its owning rank chose, so the ranks together put every office in its nearest cluster | not executed | MpiAnalysis.ClusteringAsWrittenStrandsOffices | MpiAnalysis.ConsumptionClustering |
| backend/mpi/mpi_analysis.c:114 | each rank loops while its own `local_changes` is positive, and the counts are never reduced, so a rank that changed nothing leaves the loop while the others still call the round's collectives | two ranks, consumptions [2.4, 0.1], zeroed clusters: in round 1 rank 0 counts one change (office 0 to cluster 2) and rank 1 none, so rank 1 leaves and rank 0 blocks in round 2's `MPI_Allreduce` | reduce the change counts across ranks so every rank tests the same total, which is zero exactly when every office is already in its nearest cluster | not executed | MpiAnalysis.LocalCountsDisagree | MpiAnalysis.ReduceCopies |
