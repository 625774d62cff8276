/**
 * The server-rendered dashboard (dashboard/main.go): a page built from the
 * latest summary per sector and the ten newest events, and a websocket
 * that every three seconds pushes the latest summaries and the events
 * newer than a per-connection watermark.
 */
module DashboardServer {
  import opened Base
  import opened Snapshots

  /** An event as this server decodes it. */
  datatype Evento = Evento(sector: string, timestamp: int, motivo: string, detalle: string)

  /** A summary as this server decodes it (other stored fields are ignored). */
  datatype Resumen = Resumen(sector: string, timestamp: int, promedioAmp: real, minTemp: real, maxTemp: real, tiempoPresente: int)

  /** One line of the page's event list: "[time] sector - reason" (time rendering not modelled). */
  datatype EventLine = EventLine(timestamp: int, sector: string, motivo: string)

  datatype DashboardData = DashboardData(threshold: real, eventos: seq<EventLine>, resumenes: map<string, Resumen>)

  /** The threshold the page is rendered with. */
  const Threshold: real := 5.0
  /** How many events the page lists. */
  const ShownEvents: nat := 10

  /** The event tree's values, sectors in enumeration order, then keys in enumeration order. */
  function FlattenAll(raw: seq<seq<Evento>>): seq<Evento>
  {
    if raw == [] then [] else FlattenAll(raw[..|raw| - 1]) + raw[|raw| - 1]
  }

  /** For each sector, the record under the greatest positive key that parses as a 64-bit integer. */
  method LatestResumenes(raw: map<string, Entries<Resumen>>) returns (res: map<string, Resumen>)
    ensures IsLatestPerSector(raw, res, GoKeyNumber)
  {
    res := LatestPerSector(raw, GoKeyNumber);
  }

  // ----- the page: ten newest events -----

  predicate SortedDesc(s: seq<Evento>)
  {
    forall i, j | 0 <= i < j < |s| :: s[i].timestamp >= s[j].timestamp
  }

  /** Inserts one event into a list sorted newest first. */
  method InsertDesc(s: seq<Evento>, e: Evento) returns (r: seq<Evento>)
    requires SortedDesc(s)
    ensures SortedDesc(r)
    ensures multiset(r) == multiset(s) + multiset{e}
  {
    var k := 0;
    while k < |s| && s[k].timestamp >= e.timestamp
      invariant 0 <= k <= |s|
      invariant forall i | 0 <= i < k :: s[i].timestamp >= e.timestamp
    {
      k := k + 1;
    }
    r := s[..k] + [e] + s[k..];
    assert s == s[..k] + s[k..];
  }

  /** Sorts events newest first (any order among equal timestamps is acceptable). */
  method SortByTimestampDesc(evs: seq<Evento>) returns (sorted: seq<Evento>)
    ensures SortedDesc(sorted)
    ensures multiset(sorted) == multiset(evs)
  {
    sorted := [];
    for k := 0 to |evs|
      invariant SortedDesc(sorted)
      invariant multiset(sorted) == multiset(evs[..k])
    {
      assert evs[..k + 1] == evs[..k] + [evs[k]];
      sorted := InsertDesc(sorted, evs[k]);
    }
    assert evs[..|evs|] == evs;
  }

  function LineOf(e: Evento): EventLine
  {
    EventLine(e.timestamp, e.sector, e.motivo)
  }

  function Lines(evs: seq<Evento>): (ls: seq<EventLine>)
    ensures |ls| == |evs| && forall k | 0 <= k < |evs| :: ls[k] == LineOf(evs[k])
  {
    if evs == [] then [] else [LineOf(evs[0])] + Lines(evs[1..])
  }

  /** The lines of the first ten events of a list. */
  method FormatNewest(sorted: seq<Evento>) returns (lines: seq<EventLine>)
    ensures lines == Lines(sorted[..Min(ShownEvents, |sorted|)])
  {
    lines := [];
    var i := 0;
    while i < |sorted| && i < ShownEvents
      invariant 0 <= i <= Min(ShownEvents, |sorted|)
      invariant lines == Lines(sorted[..i])
    {
      lines := lines + [LineOf(sorted[i])];
      i := i + 1;
    }
  }

  /**
   * In a list sorted newest first, every event that is not among the first
   * ten is at most as new as each of the ten shown.
   */
  lemma ShownAreNewest(sorted: seq<Evento>, evs: seq<Evento>)
    requires SortedDesc(sorted) && multiset(sorted) == multiset(evs)
    ensures var m := Min(ShownEvents, |sorted|);
      forall e, k | e in multiset(evs) - multiset(sorted[..m]) && 0 <= k < m :: sorted[k].timestamp >= e.timestamp
  {
    var m := Min(ShownEvents, |sorted|);
    assert sorted == sorted[..m] + sorted[m..];
    forall e, k | e in multiset(evs) - multiset(sorted[..m]) && 0 <= k < m
      ensures sorted[k].timestamp >= e.timestamp
    {
      assert e in multiset(sorted[m..]);
      var p :| 0 <= p < |sorted[m..]| && sorted[m..][p] == e;
      assert sorted[m + p] == e;
    }
  }

  /**
   * The page data. A failed summaries read yields an empty page; a failed
   * events read yields the summaries and no events.
   */
  method FetchDashboardData(resRaw: Option<map<string, Entries<Resumen>>>, evRaw: Option<seq<seq<Evento>>>)
    returns (d: DashboardData)
    ensures resRaw.None? ==> d == DashboardData(0.0, [], map[])
    ensures resRaw.Some? ==> d.threshold == Threshold && IsLatestPerSector(resRaw.value, d.resumenes, GoKeyNumber)
    ensures resRaw.Some? && evRaw.None? ==> d.eventos == []
    ensures resRaw.Some? && evRaw.Some? ==>
      exists sorted :: (&& SortedDesc(sorted)
                        && multiset(sorted) == multiset(FlattenAll(evRaw.value))
                        && d.eventos == Lines(sorted[..Min(ShownEvents, |sorted|)]))
  {
    if resRaw.None? {
      return DashboardData(0.0, [], map[]);
    }
    var resumenes := LatestResumenes(resRaw.value);
    if evRaw.None? {
      return DashboardData(Threshold, [], resumenes);
    }
    var raw := evRaw.value;
    var todos: seq<Evento> := [];
    for i := 0 to |raw|
      invariant todos == FlattenAll(raw[..i])
    {
      for k := 0 to |raw[i]|
        invariant todos == FlattenAll(raw[..i]) + raw[i][..k]
      {
        assert raw[i][..k + 1] == raw[i][..k] + [raw[i][k]];
        todos := todos + [raw[i][k]];
      }
      assert raw[i][..|raw[i]|] == raw[i];
      assert raw[..i + 1][..i] == raw[..i];
    }
    assert raw[..|raw|] == raw;
    var sorted := SortByTimestampDesc(todos);
    var lines := FormatNewest(sorted);
    d := DashboardData(Threshold, lines, resumenes);
  }

  // ----- the websocket: events above a watermark -----

  /**
   * The events the push loop selects AS WRITTEN: the watermark is raised
   * inside the loop, so an event is kept only when it is newer than every
   * event selected before it in enumeration order.
   */
  function EmittedAsWritten(evs: seq<Evento>, w: int): seq<Evento>
  {
    if evs == [] then []
    else
      var init := evs[..|evs| - 1];
      var e := evs[|evs| - 1];
      EmittedAsWritten(init, w) + (if e.timestamp > RunningMax(init, w) then [e] else [])
  }

  /** The watermark after scanning events from w: the greatest of w and their timestamps. */
  function RunningMax(evs: seq<Evento>, w: int): (m: int)
    ensures m >= w
    ensures forall k | 0 <= k < |evs| :: evs[k].timestamp <= m
  {
    if evs == [] then w
    else
      var init := evs[..|evs| - 1];
      var m0 := RunningMax(init, w);
      assert forall k | 0 <= k < |init| :: init[k] == evs[k];
      Max(m0, evs[|evs| - 1].timestamp)
  }

  /** The watermark only ever takes the value of a timestamp it has seen. */
  lemma {:induction false} RunningMaxAttained(evs: seq<Evento>, w: int)
    ensures RunningMax(evs, w) == w || exists k | 0 <= k < |evs| :: evs[k].timestamp == RunningMax(evs, w)
  {
    if evs != [] {
      var init := evs[..|evs| - 1];
      RunningMaxAttained(init, w);
      if RunningMax(evs, w) != w && RunningMax(evs, w) != evs[|evs| - 1].timestamp {
        var k :| 0 <= k < |init| && init[k].timestamp == RunningMax(init, w);
        assert evs[k] == init[k];
      }
    }
  }

  /** Every event selected as written is above the starting watermark and at most the final one. */
  lemma {:induction false} EmittedAsWrittenBounds(evs: seq<Evento>, w: int)
    ensures forall k | 0 <= k < |EmittedAsWritten(evs, w)| ::
      w < EmittedAsWritten(evs, w)[k].timestamp <= RunningMax(evs, w)
  {
    if evs != [] {
      EmittedAsWrittenBounds(evs[..|evs| - 1], w);
    }
  }

  /** As written, the selected events have strictly increasing timestamps. */
  lemma {:induction false} EmittedAsWrittenIncreasing(evs: seq<Evento>, w: int)
    ensures forall i, j | 0 <= i < j < |EmittedAsWritten(evs, w)| ::
      EmittedAsWritten(evs, w)[i].timestamp < EmittedAsWritten(evs, w)[j].timestamp
  {
    if evs != [] {
      var init := evs[..|evs| - 1];
      EmittedAsWrittenIncreasing(init, w);
      EmittedAsWrittenBounds(init, w);
    }
  }

  /**
   * As written, an event newer than the watermark is lost when a newer
   * event of the same snapshot is enumerated before it: here the event at
   * second 3 is never sent, in this tick or any later one.
   */
  lemma AsWrittenLosesEvent()
    ensures var a, b := Evento("A", 5, "Luces encendidas", ""), Evento("B", 3, "Aire encendido", "");
      && EmittedAsWritten([a, b], 0) == [a]
      && b.timestamp > 0
      && RunningMax([a, b], 0) == 5
      && forall later: seq<Evento> :: b !in EmittedAsWritten(later, RunningMax([a, b], 0))
  {
    var a, b := Evento("A", 5, "Luces encendidas", ""), Evento("B", 3, "Aire encendido", "");
    assert [a, b][..1] == [a];
    assert [a][..0] == [];
    assert RunningMax([a], 0) == 5;
    assert EmittedAsWritten([a], 0) == [a];
    forall later: seq<Evento> ensures b !in EmittedAsWritten(later, 5) {
      NothingAtOrBelowWatermark(later, 5, b);
    }
  }

  /** As written, an event no newer than the watermark a tick starts from is never selected in that tick. */
  lemma NothingAtOrBelowWatermark(evs: seq<Evento>, w: int, ev: Evento)
    requires ev.timestamp <= w
    ensures ev !in EmittedAsWritten(evs, w)
  {
    EmittedAsWrittenBounds(evs, w);
  }

  /** Scanning one more event. */
  lemma SelectionStep(seen: seq<Evento>, ev: Evento, w: int)
    ensures EmittedAsWritten(seen + [ev], w) == EmittedAsWritten(seen, w) + (if ev.timestamp > RunningMax(seen, w) then [ev] else [])
    ensures Above(seen + [ev], w) == Above(seen, w) + (if ev.timestamp > w then [ev] else [])
    ensures RunningMax(seen + [ev], w) == Max(RunningMax(seen, w), ev.timestamp)
  {
    assert (seen + [ev])[..|seen|] == seen;
  }

  /** The selection loop as written (lines 214-224), one sector at a time. */
  method NewEventsAsWritten(raw: seq<seq<Evento>>, w: int) returns (eventos: seq<Evento>, last: int)
    ensures eventos == EmittedAsWritten(FlattenAll(raw), w)
    ensures last == RunningMax(FlattenAll(raw), w)
  {
    eventos, last := [], w;
    for i := 0 to |raw|
      invariant eventos == EmittedAsWritten(FlattenAll(raw[..i]), w)
      invariant last == RunningMax(FlattenAll(raw[..i]), w)
    {
      eventos, last := SectorAsWritten(raw[i], FlattenAll(raw[..i]), w, eventos, last);
      assert raw[..i + 1][..i] == raw[..i];
    }
    assert raw[..|raw|] == raw;
  }

  /** The inner loop over one sector's events, continuing a scan that has already seen `seen`. */
  method SectorAsWritten(sector: seq<Evento>, ghost seen: seq<Evento>, w: int, eventos0: seq<Evento>, last0: int)
    returns (eventos: seq<Evento>, last: int)
    requires eventos0 == EmittedAsWritten(seen, w) && last0 == RunningMax(seen, w)
    ensures eventos == EmittedAsWritten(seen + sector, w) && last == RunningMax(seen + sector, w)
  {
    eventos, last := eventos0, last0;
    assert seen + sector[..0] == seen;
    for k := 0 to |sector|
      invariant eventos == EmittedAsWritten(seen + sector[..k], w)
      invariant last == RunningMax(seen + sector[..k], w)
    {
      var ev := sector[k];
      assert seen + sector[..k + 1] == (seen + sector[..k]) + [ev];
      SelectionStep(seen + sector[..k], ev, w);
      if ev.timestamp > last {
        eventos := eventos + [ev];
        if ev.timestamp > last {
          last := ev.timestamp;
        }
      }
    }
    assert sector[..|sector|] == sector;
  }

  /** The intended selection: every event newer than the watermark at the start of the tick, in order. */
  function Above(evs: seq<Evento>, w: int): seq<Evento>
  {
    if evs == [] then []
    else Above(evs[..|evs| - 1], w) + (if evs[|evs| - 1].timestamp > w then [evs[|evs| - 1]] else [])
  }

  /** The corrected selection loses nothing: it keeps exactly the events newer than the watermark. */
  lemma {:induction false} AboveExact(evs: seq<Evento>, w: int)
    ensures forall e :: multiset(Above(evs, w))[e] == if e.timestamp > w then multiset(evs)[e] else 0
  {
    if evs != [] {
      AboveExact(evs[..|evs| - 1], w);
      assert evs == evs[..|evs| - 1] + [evs[|evs| - 1]];
    }
  }

  /** The selection loop with the watermark compared at its value from the start of the tick. */
  method NewEvents(raw: seq<seq<Evento>>, w: int) returns (eventos: seq<Evento>, last: int)
    ensures eventos == Above(FlattenAll(raw), w)
    ensures last == RunningMax(FlattenAll(raw), w)
  {
    eventos, last := [], w;
    for i := 0 to |raw|
      invariant eventos == Above(FlattenAll(raw[..i]), w)
      invariant last == RunningMax(FlattenAll(raw[..i]), w)
    {
      eventos, last := SectorAbove(raw[i], FlattenAll(raw[..i]), w, eventos, last);
      assert raw[..i + 1][..i] == raw[..i];
    }
    assert raw[..|raw|] == raw;
  }

  method SectorAbove(sector: seq<Evento>, ghost seen: seq<Evento>, w: int, eventos0: seq<Evento>, last0: int)
    returns (eventos: seq<Evento>, last: int)
    requires eventos0 == Above(seen, w) && last0 == RunningMax(seen, w)
    ensures eventos == Above(seen + sector, w) && last == RunningMax(seen + sector, w)
  {
    eventos, last := eventos0, last0;
    assert seen + sector[..0] == seen;
    for k := 0 to |sector|
      invariant eventos == Above(seen + sector[..k], w)
      invariant last == RunningMax(seen + sector[..k], w)
    {
      var ev := sector[k];
      assert seen + sector[..k + 1] == (seen + sector[..k]) + [ev];
      SelectionStep(seen + sector[..k], ev, w);
      if ev.timestamp > w {
        eventos := eventos + [ev];
      }
      if ev.timestamp > last {
        last := ev.timestamp;
      }
    }
    assert sector[..|sector|] == sector;
  }

  datatype Push = Push(resumenes: map<string, Resumen>, eventos: seq<Evento>)

  /** What one iteration of the push loop does. */
  datatype Tick =
    | Skipped          // a read failed: nothing is sent, try again
    | Sent(msg: Push)  // the message was written
    | Failed(msg: Push) // the write failed: the loop ends

  /** One websocket client of the push loop. */
  class PushSession {
    var lastEventTimestamp: int
    var active: bool

    constructor ()
      ensures lastEventTimestamp == 0 && active
    {
      lastEventTimestamp := 0;
      active := true;
    }

    /**
     * One iteration as written: read both trees, select the new events
     * with the watermark raised inside the loop, send; a failed write ends
     * the session.
     */
    method Step(resRaw: Option<map<string, Entries<Resumen>>>, evRaw: Option<seq<seq<Evento>>>, writeOk: bool)
      returns (t: Tick)
      requires active
      modifies this
      ensures (resRaw.None? || evRaw.None?) ==> t == Skipped && lastEventTimestamp == old(lastEventTimestamp) && active
      ensures resRaw.Some? && evRaw.Some? ==>
        && (if writeOk then t.Sent? else t.Failed?)
        && IsLatestPerSector(resRaw.value, t.msg.resumenes, GoKeyNumber)
        && t.msg.eventos == EmittedAsWritten(FlattenAll(evRaw.value), old(lastEventTimestamp))
        && lastEventTimestamp == RunningMax(FlattenAll(evRaw.value), old(lastEventTimestamp))
        && active == writeOk
    {
      if resRaw.None? {
        return Skipped;
      }
      var resumenes := LatestResumenes(resRaw.value);
      if evRaw.None? {
        return Skipped;
      }
      var eventos, last := NewEventsAsWritten(evRaw.value, lastEventTimestamp);
      lastEventTimestamp := last;
      var msg := Push(resumenes, eventos);
      if writeOk {
        t := Sent(msg);
      } else {
        t := Failed(msg);
        active := false;
      }
    }
  }
}
