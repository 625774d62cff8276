/**
 * The realtime relay between the database and browser dashboards
 * (socket.js). For every websocket connection it keeps what the client has
 * already seen (the latest summary per sector, the device states per
 * sector and an event watermark in seconds) and forwards only changes.
 */
module Relay {
  import opened Base
  import opened Records
  import opened Snapshots

  /** A sector's device switches as stored under dispositivos/<sector>. */
  type DeviceState = map<string, bool>

  /** A message the relay writes to the websocket. */
  datatype Outgoing =
    | ResumenesMsg(resumenes: map<string, Resumen>)
    | EventosMsg(eventos: seq<Evento>)
    | DispositivosMsg(dispositivos: map<string, DeviceState>)

  /** The `tipo` tag each message carries. */
  function Tipo(m: Outgoing): (t: string)
    ensures t in {"resumenes", "eventos", "dispositivos"}
  {
    match m
    case ResumenesMsg(_) => "resumenes"
    case EventosMsg(_) => "eventos"
    case DispositivosMsg(_) => "dispositivos"
  }

  // ----- latest summary per sector -----

  /**
   * For each sector, the record under the greatest key that reads as a
   * positive number; sectors without one are omitted.
   */
  method FiltrarUltimoResumenPorSector(raw: map<string, Entries<Resumen>>) returns (res: map<string, Resumen>)
    ensures IsLatestPerSector(raw, res, JsKeyNumber)
  {
    res := LatestPerSector(raw, JsKeyNumber);
  }

  // ----- shallow equality of device records -----

  /**
   * Shallow equality of two optional device records: absent equals absent;
   * otherwise same number of keys and the same value under every key of
   * the first.
   */
  method ObjetosIguales(o1: Option<DeviceState>, o2: Option<DeviceState>) returns (eq: bool)
    ensures eq <==> o1 == o2
  {
    if o1.None? && o2.None? {
      return true;
    }
    if o1.None? || o2.None? {
      return false;
    }
    var a, b := o1.value, o2.value;
    if |a.Keys| != |b.Keys| {
      return false;
    }
    var todo := a.Keys;
    while todo != {}
      invariant todo <= a.Keys
      invariant forall k | k in a && k !in todo :: k in b && a[k] == b[k]
      decreases |todo|
    {
      var k :| k in todo;
      if k !in b || a[k] != b[k] {
        return false;
      }
      todo := todo - {k};
    }
    SameSizeSubsetIsEqual(a.Keys, b.Keys);
    assert a == b;
    return true;
  }

  lemma SameSizeSubsetIsEqual<K>(x: set<K>, y: set<K>)
    requires x <= y && |x| == |y|
    ensures x == y
  {
    if x != y {
      var e :| e in y && e !in x;
      assert x <= y - {e};
      SubsetSize(x, y - {e});
    }
  }

  lemma {:induction false} SubsetSize<K>(x: set<K>, y: set<K>)
    requires x <= y
    ensures |x| <= |y|
    decreases y
  {
    if x != {} {
      var e :| e in x;
      SubsetSize(x - {e}, y - {e});
    }
  }

  // ----- change detection, as pure specifications -----

  /** The sectors whose latest summary is new or strictly newer than the remembered one. */
  function SummaryChanges(latest: map<string, Resumen>, memory: map<string, Resumen>): map<string, Resumen>
  {
    map s | s in latest && (s !in memory || latest[s].timestamp > memory[s].timestamp) :: latest[s]
  }

  /** The sectors whose device record is new or differs from the remembered one. */
  function DeviceChanges(incoming: map<string, DeviceState>, memory: map<string, DeviceState>): map<string, DeviceState>
  {
    map s | s in incoming && Differs(incoming, memory, s) :: incoming[s]
  }

  predicate Differs(incoming: map<string, DeviceState>, memory: map<string, DeviceState>, s: string)
    requires s in incoming
  {
    s !in memory || incoming[s] != memory[s]
  }

  /** One sector's test: never seen before, or its shallow comparison fails. */
  method IsDeviceChange(incoming: map<string, DeviceState>, memory: map<string, DeviceState>, s: string) returns (changed: bool)
    requires s in incoming
    ensures changed == Differs(incoming, memory, s)
  {
    if s !in memory {
      return true;
    }
    var same := ObjetosIguales(Some(incoming[s]), Some(memory[s]));
    return !same;
  }

  lemma DeviceChangesCharacterised(incoming: map<string, DeviceState>, memory: map<string, DeviceState>, c: map<string, DeviceState>)
    requires forall s :: s in c <==> s in incoming && Differs(incoming, memory, s)
    requires forall s | s in c :: c[s] == incoming[s]
    ensures c == DeviceChanges(incoming, memory)
  {
  }

  /** A second identical device snapshot yields no changes. */
  lemma DeviceChangesIdempotent(incoming: map<string, DeviceState>, memory: map<string, DeviceState>)
    ensures DeviceChanges(incoming, memory + DeviceChanges(incoming, memory)) == map[]
  {
    var m2 := memory + DeviceChanges(incoming, memory);
    forall s | s in incoming ensures s in m2 && incoming[s] == m2[s] {
    }
  }

  /** A second identical summary snapshot yields no changes. */
  lemma SummaryChangesIdempotent(latest: map<string, Resumen>, memory: map<string, Resumen>)
    ensures SummaryChanges(latest, memory + SummaryChanges(latest, memory)) == map[]
  {
    var m2 := memory + SummaryChanges(latest, memory);
    forall s | s in latest ensures s in m2 && m2[s].timestamp >= latest[s].timestamp {
    }
  }

  /** What a connection delivers for a sequence of latest-summary snapshots. */
  function SummaryDeliveries(snaps: seq<map<string, Resumen>>, memory: map<string, Resumen>): (d: seq<map<string, Resumen>>)
    ensures |d| == |snaps|
  {
    if snaps == [] then []
    else
      var c := SummaryChanges(snaps[0], memory);
      [c] + SummaryDeliveries(snaps[1..], memory + c)
  }

  /** Every delivery of a sector is strictly newer than what the connection remembered. */
  lemma {:induction false} DeliveriesNewerThanMemory(snaps: seq<map<string, Resumen>>, memory: map<string, Resumen>, k: nat, s: string)
    requires k < |snaps| && s in memory && s in SummaryDeliveries(snaps, memory)[k]
    ensures SummaryDeliveries(snaps, memory)[k][s].timestamp > memory[s].timestamp
  {
    var c := SummaryChanges(snaps[0], memory);
    if k > 0 {
      assert SummaryDeliveries(snaps, memory)[k] == SummaryDeliveries(snaps[1..], memory + c)[k - 1];
      DeliveriesNewerThanMemory(snaps[1..], memory + c, k - 1, s);
    }
  }

  /**
   * On one connection a sector's summary is delivered again only when its
   * timestamp is strictly greater than every earlier delivery of that sector.
   */
  lemma {:induction false} DeliveriesStrictlyIncrease(snaps: seq<map<string, Resumen>>, memory: map<string, Resumen>, i: nat, j: nat, s: string)
    requires i < j < |snaps|
    requires s in SummaryDeliveries(snaps, memory)[i] && s in SummaryDeliveries(snaps, memory)[j]
    ensures SummaryDeliveries(snaps, memory)[j][s].timestamp > SummaryDeliveries(snaps, memory)[i][s].timestamp
  {
    var c := SummaryChanges(snaps[0], memory);
    var rest := SummaryDeliveries(snaps[1..], memory + c);
    assert SummaryDeliveries(snaps, memory)[j] == rest[j - 1];
    if i == 0 {
      DeliveriesNewerThanMemory(snaps[1..], memory + c, j - 1, s);
    } else {
      assert SummaryDeliveries(snaps, memory)[i] == rest[i - 1];
      DeliveriesStrictlyIncrease(snaps[1..], memory + c, i - 1, j - 1, s);
    }
  }

  // ----- events -----

  /** The events of a tree sector -> key -> event, sectors in order, then keys in order. */
  function Flatten(raw: Entries<Entries<Evento>>): seq<Evento>
  {
    if raw == [] then [] else Flatten(raw[..|raw| - 1]) + Values(raw[|raw| - 1].1)
  }

  function Values(regs: Entries<Evento>): (vs: seq<Evento>)
    ensures |vs| == |regs| && forall k | 0 <= k < |regs| :: vs[k] == regs[k].1
  {
    if regs == [] then [] else Values(regs[..|regs| - 1]) + [regs[|regs| - 1].1]
  }

  /** The events stamped at or after the watermark, in their original order. */
  function AtOrAfter(evs: seq<Evento>, w: int): seq<Evento>
  {
    if evs == [] then []
    else AtOrAfter(evs[..|evs| - 1], w) + (if evs[|evs| - 1].timestamp >= w then [evs[|evs| - 1]] else [])
  }

  /** The filter keeps every occurrence of each event it admits and drops all others. */
  lemma {:induction false} AtOrAfterCounts(evs: seq<Evento>, w: int)
    ensures forall e: Evento :: multiset(AtOrAfter(evs, w))[e] == if e.timestamp >= w then multiset(evs)[e] else 0
  {
    if evs != [] {
      AtOrAfterCounts(evs[..|evs| - 1], w);
      assert evs == evs[..|evs| - 1] + [evs[|evs| - 1]];
    }
  }

  lemma AtOrAfterMembers(evs: seq<Evento>, w: int)
    ensures forall e :: e in AtOrAfter(evs, w) <==> e in evs && e.timestamp >= w
  {
    AtOrAfterCounts(evs, w);
    forall e ensures e in AtOrAfter(evs, w) <==> e in evs && e.timestamp >= w {
      assert e in AtOrAfter(evs, w) <==> multiset(AtOrAfter(evs, w))[e] > 0;
      assert e in evs <==> multiset(evs)[e] > 0;
    }
  }

  lemma {:induction false} FlattenMembers(raw: Entries<Entries<Evento>>, e: Evento)
    ensures e in Flatten(raw) <==> exists i, k | 0 <= i < |raw| && 0 <= k < |raw[i].1| :: raw[i].1[k].1 == e
  {
    if raw != [] {
      var n := |raw| - 1;
      var init := raw[..n];
      FlattenMembers(init, e);
      if e in Values(raw[n].1) {
        var k :| 0 <= k < |raw[n].1| && Values(raw[n].1)[k] == e;
        assert raw[n].1[k].1 == e;
      }
      if exists i, k | 0 <= i < |raw| && 0 <= k < |raw[i].1| :: raw[i].1[k].1 == e {
        var i, k :| 0 <= i < |raw| && 0 <= k < |raw[i].1| && raw[i].1[k].1 == e;
        if i == n {
          assert Values(raw[n].1)[k] == e;
        } else {
          assert init[i].1[k].1 == e;
        }
      }
    }
  }

  /** The greatest timestamp of a non-empty batch (Math.max over the batch). */
  function MaxTimestamp(evs: seq<Evento>): (m: int)
    requires |evs| > 0
    ensures forall k | 0 <= k < |evs| :: evs[k].timestamp <= m
    ensures exists k | 0 <= k < |evs| :: evs[k].timestamp == m
  {
    if |evs| == 1 then evs[0].timestamp
    else
      var rest := MaxTimestamp(evs[1..]);
      assert forall k | 1 <= k < |evs| :: evs[k] == evs[1..][k - 1];
      if evs[0].timestamp >= rest then evs[0].timestamp else rest
  }

  /** The watermark after a batch: one past the newest forwarded event, or unchanged. */
  function NextWatermark(batch: seq<Evento>, w: int): (w': int)
    ensures forall k | 0 <= k < |batch| :: batch[k].timestamp < w'
  {
    if batch == [] then w else MaxTimestamp(batch) + 1
  }

  /** Filtering then advancing never moves the watermark back, and a non-empty batch moves it forward. */
  lemma WatermarkAdvances(evs: seq<Evento>, w: int)
    ensures NextWatermark(AtOrAfter(evs, w), w) >= w
    ensures AtOrAfter(evs, w) != [] ==> NextWatermark(AtOrAfter(evs, w), w) > w
  {
    var batch := AtOrAfter(evs, w);
    AtOrAfterMembers(evs, w);
    if batch != [] {
      var k :| 0 <= k < |batch| && batch[k].timestamp == MaxTimestamp(batch);
      assert batch[k] in batch;
    }
  }

  /** Flattening then filtering, as nested loops. */
  method FiltrarEventosNuevos(raw: Entries<Entries<Evento>>, w: int) returns (nuevos: seq<Evento>)
    ensures nuevos == AtOrAfter(Flatten(raw), w)
  {
    var eventos: seq<Evento> := [];
    for i := 0 to |raw|
      invariant eventos == Flatten(raw[..i])
    {
      var regs := raw[i].1;
      for k := 0 to |regs|
        invariant eventos == Flatten(raw[..i]) + Values(regs)[..k]
      {
        assert Values(regs)[..k + 1] == Values(regs)[..k] + [regs[k].1];
        eventos := eventos + [regs[k].1];
      }
      assert Values(regs)[..|regs|] == Values(regs);
      assert raw[..i + 1][..i] == raw[..i];
    }
    assert raw[..|raw|] == raw;
    nuevos := [];
    for k := 0 to |eventos|
      invariant nuevos == AtOrAfter(eventos[..k], w)
    {
      assert eventos[..k + 1][..k] == eventos[..k];
      if eventos[k].timestamp >= w {
        nuevos := nuevos + [eventos[k]];
      }
    }
    assert eventos[..|eventos|] == eventos;
  }

  // ----- one websocket connection -----

  /** The state a connection's listeners close over. */
  class Connection {
    /** Events stamped below this second are not forwarded. */
    var watermark: int
    var lastSummary: map<string, Resumen>
    var lastDevices: map<string, DeviceState>
    /** Whether the websocket is OPEN; listeners keep running after it closes. */
    var open: bool

    /** A new connection starts with empty memory and a watermark three minutes back. */
    constructor (nowMillis: int)
      ensures watermark == nowMillis / 1000 - 180
      ensures lastSummary == map[] && lastDevices == map[] && open
    {
      watermark := nowMillis / 1000 - 180;
      lastSummary := map[];
      lastDevices := map[];
      open := true;
    }

    /** Records and returns the summaries that are new to this connection. */
    method ObtenerCambiosResumenes(nuevos: map<string, Resumen>) returns (cambios: map<string, Resumen>)
      modifies this`lastSummary
      ensures cambios == SummaryChanges(nuevos, old(lastSummary))
      ensures lastSummary == old(lastSummary) + cambios
    {
      cambios := map[];
      var todo := nuevos.Keys;
      while todo != {}
        invariant todo <= nuevos.Keys
        invariant cambios == map s | s in nuevos && s !in todo && (s !in old(lastSummary) || nuevos[s].timestamp > old(lastSummary)[s].timestamp) :: nuevos[s]
        invariant lastSummary == old(lastSummary) + cambios
        decreases |todo|
      {
        var s :| s in todo;
        if s !in lastSummary || nuevos[s].timestamp > lastSummary[s].timestamp {
          cambios := cambios[s := nuevos[s]];
          lastSummary := lastSummary[s := nuevos[s]];
        }
        todo := todo - {s};
      }
    }

    /** Records and returns the device records that are new to this connection. */
    method ObtenerCambiosDispositivos(nuevos: map<string, DeviceState>) returns (cambios: map<string, DeviceState>)
      modifies this`lastDevices
      ensures cambios == DeviceChanges(nuevos, old(lastDevices))
      ensures lastDevices == old(lastDevices) + cambios
    {
      cambios := map[];
      ghost var m0 := lastDevices;
      var todo := nuevos.Keys;
      while todo != {}
        invariant todo <= nuevos.Keys
        invariant forall s :: s in cambios <==> s in nuevos && s !in todo && Differs(nuevos, m0, s)
        invariant forall s | s in cambios :: cambios[s] == nuevos[s]
        invariant lastDevices.Keys == m0.Keys + cambios.Keys
        invariant forall s | s in lastDevices :: lastDevices[s] == if s in cambios then cambios[s] else m0[s]
        decreases |todo|
      {
        var s :| s in todo;
        assert s !in cambios;
        var changed := IsDeviceChange(nuevos, lastDevices, s);
        assert changed == Differs(nuevos, m0, s);
        if changed {
          cambios := cambios[s := nuevos[s]];
          lastDevices := lastDevices[s := nuevos[s]];
        }
        todo := todo - {s};
      }
      DeviceChangesCharacterised(nuevos, m0, cambios);
      assert lastDevices == m0 + cambios;
    }

    /** The summaries listener: forwards the sectors whose latest summary is new to the client. */
    method OnResumenes(snapshot: Option<map<string, Entries<Resumen>>>) returns (sent: Option<Outgoing>)
      modifies this`lastSummary
      ensures snapshot.None? ==> sent.None? && lastSummary == old(lastSummary)
      ensures snapshot.Some? ==> exists latest ::
        (&& IsLatestPerSector(snapshot.value, latest, JsKeyNumber)
         && lastSummary == old(lastSummary) + SummaryChanges(latest, old(lastSummary))
         && sent == (if open && SummaryChanges(latest, old(lastSummary)) != map[]
                     then Some(ResumenesMsg(SummaryChanges(latest, old(lastSummary)))) else None))
    {
      if snapshot.None? {
        return None;
      }
      var ultimos := FiltrarUltimoResumenPorSector(snapshot.value);
      var cambios := ObtenerCambiosResumenes(ultimos);
      sent := None;
      if open && |cambios.Keys| > 0 {
        sent := Some(ResumenesMsg(cambios));
      }
    }

    /**
     * The events listener: forwards the events stamped at or after the
     * watermark and moves the watermark past the newest of them, whether
     * or not the socket is still open.
     */
    method OnEventos(snapshot: Option<Entries<Entries<Evento>>>) returns (sent: Option<Outgoing>)
      modifies this`watermark
      ensures snapshot.None? ==> sent.None? && watermark == old(watermark)
      ensures snapshot.Some? ==>
        var batch := AtOrAfter(Flatten(snapshot.value), old(watermark));
        && watermark == NextWatermark(batch, old(watermark))
        && sent == (if open && batch != [] then Some(EventosMsg(batch)) else None)
      ensures watermark >= old(watermark)
      ensures sent.Some? ==> sent.value.EventosMsg? && forall e | e in sent.value.eventos ::
        old(watermark) <= e.timestamp < watermark
    {
      if snapshot.None? {
        return None;
      }
      var nuevos := FiltrarEventosNuevos(snapshot.value, watermark);
      WatermarkAdvances(Flatten(snapshot.value), watermark);
      AtOrAfterMembers(Flatten(snapshot.value), watermark);
      sent := None;
      if |nuevos| > 0 {
        watermark := MaxTimestamp(nuevos) + 1;
        if open {
          sent := Some(EventosMsg(nuevos));
        }
      }
    }

    /** The devices listener: forwards the sectors whose device record changed. */
    method OnDispositivos(snapshot: Option<map<string, DeviceState>>) returns (sent: Option<Outgoing>)
      modifies this`lastDevices
      ensures snapshot.None? ==> sent.None? && lastDevices == old(lastDevices)
      ensures snapshot.Some? ==>
        var c := DeviceChanges(snapshot.value, old(lastDevices));
        && lastDevices == old(lastDevices) + c
        && sent == (if open && c != map[] then Some(DispositivosMsg(c)) else None)
    {
      if snapshot.None? {
        return None;
      }
      var cambios := ObtenerCambiosDispositivos(snapshot.value);
      sent := None;
      if open && |cambios.Keys| > 0 {
        sent := Some(DispositivosMsg(cambios));
      }
    }

    /** The socket closes; the listeners stay subscribed but nothing more is sent. */
    method Close()
      modifies this`open
      ensures !open
    {
      open := false;
    }
  }
}
