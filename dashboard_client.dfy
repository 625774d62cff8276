/**
 * The browser dashboard's state, resources/assets/dashboard-enhanced.js:
 * the summaries and device states merged from the relay's deltas, the
 * local device toggle, the add-office form, the event list that keeps the
 * ten newest events, and the lookups that classify currents, event codes
 * and efficiencies. Rendering, charts and toasts are not modelled.
 */
module DashboardClient {
  import opened Base
  import opened Feeds
  import Records

  /** An event as the relay delivers it; a missing or empty `id_tipo` is None. */
  datatype AvisoCliente = AvisoCliente(timestamp: int, idTipo: Option<string>, adicional: string)

  /** The data of an `avisos` message: an array of events, or anything else. */
  datatype AvisosPayload = NotArray | Array(avisos: seq<AvisoCliente>)

  /** The outcome of the add-office form. */
  datatype AddResult = InvalidName | AlreadyExists | Added(nombre: string)

  /** The event list shows at most this many events. */
  const MaxEventos: nat := 10

  // ---------------------------------------------------------------------
  // The event list
  // ---------------------------------------------------------------------

  function MinNat(a: nat, b: nat): nat { if a <= b then a else b }

  /** The first (newest) ten of a list. */
  function Newest(s: seq<AvisoCliente>): (n: seq<AvisoCliente>)
    ensures |n| == MinNat(|s|, MaxEventos) && n == s[..|n|]
  {
    s[..MinNat(|s|, MaxEventos)]
  }

  /** agregarEvento on the list: prepend the event, then drop the last one when there are more than ten. */
  function Agregado(lista: seq<AvisoCliente>, aviso: AvisoCliente): (l: seq<AvisoCliente>)
    ensures 1 <= |l| <= |lista| + 1 && l[0] == aviso && l[1..] == lista[..|l| - 1]
    ensures |l| <= MaxEventos || |l| <= |lista|
    ensures |lista| <= MaxEventos ==> l == Newest([aviso] + lista)
  {
    var l := [aviso] + lista;
    if |l| > MaxEventos then l[..|l| - 1] else l
  }

  function Reverse(s: seq<AvisoCliente>): (r: seq<AvisoCliente>)
    ensures |r| == |s|
  {
    if s == [] then [] else [s[|s| - 1]] + Reverse(s[..|s| - 1])
  }

  /** The list after agregarEvento on each event of a batch, in array order. */
  function AgregadosTodos(lista: seq<AvisoCliente>, avisos: seq<AvisoCliente>): seq<AvisoCliente>
  {
    if avisos == [] then lista else Agregado(AgregadosTodos(lista, avisos[..|avisos| - 1]), avisos[|avisos| - 1])
  }

  lemma NewestOfNewest(a: AvisoCliente, s: seq<AvisoCliente>)
    ensures Newest([a] + Newest(s)) == Newest([a] + s)
  {
    var n := Newest(s);
    var l1, l2 := Newest([a] + n), Newest([a] + s);
    assert |l1| == |l2|;
    forall i | 0 <= i < |l1|
      ensures l1[i] == l2[i]
    {
      if i > 0 {
        assert l1[i] == n[i - 1] == s[i - 1];
      }
    }
  }

  /**
   * Starting from at most ten events, a batch leaves exactly the ten
   * newest of (batch reversed, then the old list): the last event of the
   * batch on top, and never more than ten.
   */
  lemma {:induction false} BatchKeepsTheTenNewest(lista: seq<AvisoCliente>, avisos: seq<AvisoCliente>)
    requires |lista| <= MaxEventos
    ensures AgregadosTodos(lista, avisos) == Newest(Reverse(avisos) + lista)
    ensures |AgregadosTodos(lista, avisos)| <= MaxEventos
  {
    if avisos == [] {
      assert Reverse(avisos) + lista == lista;
    } else {
      var init, a := avisos[..|avisos| - 1], avisos[|avisos| - 1];
      BatchKeepsTheTenNewest(lista, init);
      var prev := AgregadosTodos(lista, init);
      assert AgregadosTodos(lista, avisos) == Agregado(prev, a) == Newest([a] + prev);
      NewestOfNewest(a, Reverse(init) + lista);
      assert Reverse(avisos) + lista == [a] + (Reverse(init) + lista);
    }
  }

  // ---------------------------------------------------------------------
  // Lookups
  // ---------------------------------------------------------------------

  /** `resumen.corriente_a || 0`: a missing current counts as 0. */
  function CorrienteDe(corriente: Option<real>): real
  {
    if corriente.Some? then corriente.value else 0.0
  }

  /** getStatusClass: above 15 A critical, above 10 A warning, otherwise optimal. */
  function StatusClass(corriente: Option<real>): (c: string)
    ensures c == "critical" <==> CorrienteDe(corriente) > 15.0
    ensures c == "warning" <==> 10.0 < CorrienteDe(corriente) <= 15.0
    ensures c == "optimal" <==> CorrienteDe(corriente) <= 10.0
  {
    var a := CorrienteDe(corriente);
    if a > 15.0 then "critical" else if a > 10.0 then "warning" else "optimal"
  }

  /** getStatusText: the label of the same three bands. */
  function StatusText(corriente: Option<real>): (t: string)
    ensures t == "Crítico" <==> CorrienteDe(corriente) > 15.0
    ensures t == "Alerta" <==> 10.0 < CorrienteDe(corriente) <= 15.0
    ensures t == "Óptimo" <==> CorrienteDe(corriente) <= 10.0
  {
    var a := CorrienteDe(corriente);
    if a > 15.0 then "Crítico" else if a > 10.0 then "Alerta" else "Óptimo"
  }

  /** The class and the label of a current always name the same band. */
  lemma StatusClassMatchesText(corriente: Option<real>)
    ensures StatusClass(corriente) == "critical" <==> StatusText(corriente) == "Crítico"
    ensures StatusClass(corriente) == "warning" <==> StatusText(corriente) == "Alerta"
    ensures StatusClass(corriente) == "optimal" <==> StatusText(corriente) == "Óptimo"
  {
  }

  /** The codes shown as errors, and as warnings; `includes` compares whole ids. */
  predicate IsHighCode(idTipo: Option<string>) { idTipo.Some? && idTipo.value in ["6", "7", "8", "9"] }
  predicate IsMediumCode(idTipo: Option<string>) { idTipo.Some? && idTipo.value in ["2", "3", "5"] }

  function EventoClase(idTipo: Option<string>): (c: string)
    ensures c == "danger" <==> IsHighCode(idTipo)
    ensures c == "warning" <==> !IsHighCode(idTipo) && IsMediumCode(idTipo)
    ensures c == "info" <==> !IsHighCode(idTipo) && !IsMediumCode(idTipo)
  {
    if IsHighCode(idTipo) then "danger" else if IsMediumCode(idTipo) then "warning" else "info"
  }

  function EventoPrioridad(idTipo: Option<string>): (p: string)
    ensures p == "high" <==> IsHighCode(idTipo)
    ensures p == "medium" <==> !IsHighCode(idTipo) && IsMediumCode(idTipo)
    ensures p == "low" <==> !IsHighCode(idTipo) && !IsMediumCode(idTipo)
  {
    if IsHighCode(idTipo) then "high" else if IsMediumCode(idTipo) then "medium" else "low"
  }

  function EventoTipo(idTipo: Option<string>): (t: string)
    ensures t == "error" <==> IsHighCode(idTipo)
    ensures t == "warning" <==> !IsHighCode(idTipo) && IsMediumCode(idTipo)
    ensures t == "success" <==> !IsHighCode(idTipo) && !IsMediumCode(idTipo)
  {
    if IsHighCode(idTipo) then "error" else if IsMediumCode(idTipo) then "warning" else "success"
  }

  /** The three event classifiers agree: codes 6 to 9 danger/high/error, 2, 3 and 5 warning/medium/warning, the rest info/low/success. */
  lemma EventClassifiersAgree(idTipo: Option<string>)
    ensures EventoClase(idTipo) == "danger" <==> EventoPrioridad(idTipo) == "high"
    ensures EventoPrioridad(idTipo) == "high" <==> EventoTipo(idTipo) == "error"
    ensures EventoClase(idTipo) == "warning" <==> EventoPrioridad(idTipo) == "medium"
    ensures EventoPrioridad(idTipo) == "medium" <==> EventoTipo(idTipo) == "warning"
    ensures EventoClase(idTipo) == "info" <==> EventoPrioridad(idTipo) == "low"
    ensures EventoPrioridad(idTipo) == "low" <==> EventoTipo(idTipo) == "success"
  {
  }

  /** `split('-')[0]`: the part of an id before its first dash. */
  function BeforeDash(s: string): (p: string)
    ensures '-' !in p && p <= s
    ensures |p| < |s| ==> s[|p|] == '-'
  {
    if s == [] then [] else if s[0] == '-' then [] else [s[0]] + BeforeDash(s[1..])
  }

  const Mensajes: map<string, string> := map[
    "0" := "Luces apagadas",
    "1" := "Luces encendidas",
    "2" := "Luces apagadas por ausencia",
    "3" := "Aire apagado",
    "4" := "Aire encendido",
    "5" := "Aire apagado automáticamente",
    "6" := "Consumo anómalo detectado",
    "7" := "Corte de energía",
    "8" := "Sensor no responde",
    "9" := "Alerta de corriente elevada",
    "10" := "Oficina agregada",
    "11" := "Oficina eliminada",
    "12" := "Configuración modificada"]

  /** The code getEventoMensaje looks up: the id's prefix before '-', or "0" when that is empty or the id is missing. */
  function TipoBase(idTipo: Option<string>): (b: string)
    ensures b != []
    ensures idTipo.None? ==> b == "0"
    ensures idTipo.Some? && BeforeDash(idTipo.value) != [] ==> b == BeforeDash(idTipo.value)
  {
    if idTipo.Some? && BeforeDash(idTipo.value) != [] then BeforeDash(idTipo.value) else "0"
  }

  /** getEventoMensaje: the message of the base code, or 'Evento del sistema', then a space and the extra text. */
  function EventoMensaje(aviso: AvisoCliente): (m: string)
    ensures TipoBase(aviso.idTipo) in Mensajes ==> m == Mensajes[TipoBase(aviso.idTipo)] + " " + aviso.adicional
    ensures TipoBase(aviso.idTipo) !in Mensajes ==> m == "Evento del sistema " + aviso.adicional
  {
    var base := TipoBase(aviso.idTipo);
    (if base in Mensajes then Mensajes[base] else "Evento del sistema") + " " + aviso.adicional
  }

  lemma BeforeDashOfSuffixed(base: string, suffix: string)
    requires '-' !in base
    ensures BeforeDash(base + "-" + suffix) == base
  {
    if base != [] {
      assert (base + "-" + suffix)[1..] == base[1..] + "-" + suffix;
      BeforeDashOfSuffixed(base[1..], suffix);
    }
  }

  /**
   * An id with a suffix keeps its base code's message but loses its
   * priority: `includes` compares whole ids, so "7-1" reads "Corte de
   * energía" and is shown as low-priority information, whatever the base.
   */
  lemma SuffixedIdsLosePriority(base: string, suffix: string, adicional: string)
    requires base in Mensajes && '-' !in base
    ensures EventoMensaje(AvisoCliente(0, Some(base + "-" + suffix), adicional))
            == EventoMensaje(AvisoCliente(0, Some(base), adicional))
    ensures EventoPrioridad(Some(base + "-" + suffix)) == "low" && EventoTipo(Some(base + "-" + suffix)) == "success"
    ensures EventoClase(Some(base + "-" + suffix)) == "info"
  {
    BeforeDashOfSuffixed(base, suffix);
    BeforeDashOfSuffixed(base, []);
    assert base + "-" + [] == base + "-";
    var id := base + "-" + suffix;
    assert id[|base|] == '-';
    assert '-' in id;
    assert id !in ["6", "7", "8", "9"] && id !in ["2", "3", "5"];
  }

  /** getEfficiencyClass as the class's later definition has it: 90, 80 and 60 percent. */
  function EfficiencyClass(eficiencia: real): (c: string)
    ensures c == "excellent" <==> eficiencia >= 90.0
    ensures c == "good" <==> 80.0 <= eficiencia < 90.0
    ensures c == "average" <==> 60.0 <= eficiencia < 80.0
    ensures c == "poor" <==> eficiencia < 60.0
  {
    if eficiencia >= 90.0 then "excellent"
    else if eficiencia >= 80.0 then "good"
    else if eficiencia >= 60.0 then "average"
    else "poor"
  }

  /** Ranks of the efficiency classes, best first at 3. */
  function ClassRank(c: string): int
  {
    if c == "excellent" then 3 else if c == "good" then 2 else if c == "average" then 1 else 0
  }

  /** A higher efficiency never gets a worse class. */
  lemma EfficiencyClassIsMonotone(e1: real, e2: real)
    requires e1 <= e2
    ensures ClassRank(EfficiencyClass(e1)) <= ClassRank(EfficiencyClass(e2))
  {
  }

  // ---------------------------------------------------------------------
  // Office names
  // ---------------------------------------------------------------------

  /**
   * What String.prototype.trim strips: the white space (tab, vertical tab,
   * form feed, space, no-break space, the byte-order mark and the other
   * space separators) and the line terminators (line feed, carriage
   * return, line and paragraph separators).
   */
  predicate IsSpace(c: char)
  {
    || c == '\t' || c == '\U{B}' || c == '\U{C}' || c == ' ' || c == '\U{A0}' || c == '\U{FEFF}'
    || c == '\U{1680}' || '\U{2000}' <= c <= '\U{200A}' || c == '\U{202F}' || c == '\U{205F}' || c == '\U{3000}'
    || c == '\n' || c == '\r' || c == '\U{2028}' || c == '\U{2029}'
  }

  function TrimStart(s: string): (t: string)
    ensures |t| <= |s| && t == s[|s| - |t|..]
    ensures t == [] || !IsSpace(t[0])
  {
    if s != [] && IsSpace(s[0]) then TrimStart(s[1..]) else s
  }

  function TrimEnd(s: string): (t: string)
    ensures t <= s
    ensures t == [] || !IsSpace(t[|t| - 1])
  {
    if s != [] && IsSpace(s[|s| - 1]) then TrimEnd(s[..|s| - 1]) else s
  }

  function UpperChar(c: char): char
  {
    if 'a' <= c <= 'z' then (c as int - 'a' as int + 'A' as int) as char else c
  }

  function Upper(s: string): (u: string)
    ensures |u| == |s| && forall i | 0 <= i < |s| :: u[i] == UpperChar(s[i])
  {
    seq(|s|, i requires 0 <= i < |s| => UpperChar(s[i]))
  }

  /** `value.trim().toUpperCase()`. */
  function Normalizado(s: string): string
  {
    Upper(TrimEnd(TrimStart(s)))
  }

  /** The pattern ^[A-Z0-9]+$. */
  predicate NombreValido(s: string)
  {
    |s| > 0 && forall i | 0 <= i < |s| :: 'A' <= s[i] <= 'Z' || '0' <= s[i] <= '9'
  }

  /** A valid name is already normal: trimming and upper-casing it again changes nothing. */
  lemma ValidNamesAreNormal(n: string)
    requires NombreValido(n)
    ensures Normalizado(n) == n
  {
    assert !IsSpace(n[0]) && !IsSpace(n[|n| - 1]);
    assert TrimStart(n) == n;
    assert TrimEnd(n) == n;
    var u := Upper(n);
    forall i | 0 <= i < |n|
      ensures u[i] == n[i]
    {
      assert 'A' <= n[i] <= 'Z' || '0' <= n[i] <= '9';
    }
  }

  /** Surrounding blanks and letter case do not matter: the name the form accepts is a fixed point of normalizing. */
  lemma NormalizingIsIdempotent(s: string)
    requires NombreValido(Normalizado(s))
    ensures Normalizado(Normalizado(s)) == Normalizado(s)
  {
    ValidNamesAreNormal(Normalizado(s));
  }

  /** The summary a new office starts with: zeros, temperatures 22 and 24. */
  function ResumenInicial(segundos: int): Records.Resumen
  {
    Records.Resumen(segundos, 0.0, 0.0, 0.0, 22.0, 24.0, 0, 0.0, 0.0)
  }

  function AvisoOficinaAgregada(segundos: int, nombre: string, sector: string): AvisoCliente
  {
    AvisoCliente(segundos, Some("10"), "Oficina " + nombre + " (" + sector + ") agregada")
  }

  class Dashboard {
    var resumenes: map<string, Records.Resumen>
    var dispositivos: map<string, map<string, bool>>
    /** The rendered event list, newest first. */
    var listaEventos: seq<AvisoCliente>

    constructor ()
      ensures resumenes == map[] && dispositivos == map[] && listaEventos == []
    {
      resumenes := map[];
      dispositivos := map[];
      listaEventos := [];
    }

    predicate Valid()
      reads this
    {
      |listaEventos| <= MaxEventos
    }

    /** handleResumenes: Object.assign of the delta. */
    method HandleResumenes(delta: map<string, Records.Resumen>)
      modifies this`resumenes
      ensures forall o | o in delta :: o in resumenes && resumenes[o] == delta[o]
      ensures forall o | o !in delta :: (o in resumenes <==> o in old(resumenes))
      ensures forall o | o !in delta && o in resumenes :: resumenes[o] == old(resumenes[o])
    {
      resumenes := resumenes + delta;
    }

    /** handleDispositivos: Object.assign of the delta; a delta entry replaces an office's whole record. */
    method HandleDispositivos(delta: map<string, map<string, bool>>)
      modifies this`dispositivos
      ensures forall o | o in delta :: o in dispositivos && dispositivos[o] == delta[o]
      ensures forall o | o !in delta :: (o in dispositivos <==> o in old(dispositivos))
      ensures forall o | o !in delta && o in dispositivos :: dispositivos[o] == old(dispositivos[o])
    {
      dispositivos := dispositivos + delta;
    }

    /** agregarEvento: the new event on top, the list kept to ten. */
    method AgregarEvento(aviso: AvisoCliente)
      requires Valid()
      modifies this`listaEventos
      ensures Valid() && listaEventos == Agregado(old(listaEventos), aviso)
    {
      listaEventos := [aviso] + listaEventos;
      if |listaEventos| > MaxEventos {
        listaEventos := listaEventos[..|listaEventos| - 1];
      }
    }

    /** handleAvisos: each event of an array in order; anything else is ignored. */
    method HandleAvisos(p: AvisosPayload)
      requires Valid()
      modifies this`listaEventos
      ensures Valid()
      ensures p.NotArray? ==> listaEventos == old(listaEventos)
      ensures p.Array? ==> listaEventos == AgregadosTodos(old(listaEventos), p.avisos)
    {
      if p.NotArray? {
        return;
      }
      for i := 0 to |p.avisos|
        invariant Valid()
        invariant listaEventos == AgregadosTodos(old(listaEventos), p.avisos[..i])
      {
        assert p.avisos[..i + 1][..i] == p.avisos[..i];
        AgregarEvento(p.avisos[i]);
      }
      assert p.avisos[..|p.avisos|] == p.avisos;
    }

    /** toggleDispositivo: creates the office's record if missing and sets only the named device. */
    method ToggleDispositivo(oficina: string, dispositivo: string, estado: bool)
      modifies this`dispositivos
      ensures oficina in dispositivos && dispositivo in dispositivos[oficina] && dispositivos[oficina][dispositivo] == estado
      ensures forall d | d != dispositivo ::
                (d in dispositivos[oficina] <==> oficina in old(dispositivos) && d in old(dispositivos[oficina]))
      ensures forall d | d != dispositivo && d in dispositivos[oficina] :: dispositivos[oficina][d] == old(dispositivos[oficina][d])
      ensures forall o | o != oficina :: (o in dispositivos <==> o in old(dispositivos))
      ensures forall o | o != oficina && o in dispositivos :: dispositivos[o] == old(dispositivos[o])
    {
      if oficina !in dispositivos {
        dispositivos := dispositivos[oficina := map[]];
      }
      dispositivos := dispositivos[oficina := dispositivos[oficina][dispositivo := estado]];
    }

    /**
     * agregarOficina: the name is trimmed and upper-cased, rejected unless
     * it is letters and digits only or when a summary already exists for
     * it; otherwise the office gets a zeroed summary, both devices on, and
     * an "office added" event. `ahoraMs` is Date.now().
     */
    method AgregarOficina(nombreCampo: string, sectorCampo: string, ahoraMs: int) returns (r: AddResult)
      requires Valid()
      modifies this`resumenes, this`dispositivos, this`listaEventos
      ensures Valid()
      ensures var nombre := Normalizado(nombreCampo);
        && (r == InvalidName <==> !NombreValido(nombre))
        && (r == AlreadyExists <==> NombreValido(nombre) && nombre in old(resumenes))
        && (r.Added? ==> r.nombre == nombre)
      ensures !r.Added? ==> resumenes == old(resumenes) && dispositivos == old(dispositivos) && listaEventos == old(listaEventos)
      ensures r.Added? ==>
                && resumenes == old(resumenes)[r.nombre := ResumenInicial(ahoraMs / 1000)]
                && dispositivos == old(dispositivos)[r.nombre := BothOn]
                && listaEventos == Agregado(old(listaEventos),
                                            AvisoOficinaAgregada(ahoraMs / 1000, r.nombre, TrimEnd(TrimStart(sectorCampo))))
    {
      var nombre := Normalizado(nombreCampo);
      var sector := TrimEnd(TrimStart(sectorCampo));
      if !NombreValido(nombre) {
        return InvalidName;
      }
      if nombre in resumenes {
        return AlreadyExists;
      }
      resumenes := resumenes[nombre := ResumenInicial(ahoraMs / 1000)];
      dispositivos := dispositivos[nombre := BothOn];
      AgregarEvento(AvisoOficinaAgregada(ahoraMs / 1000, nombre, sector));
      r := Added(nombre);
    }
  }
}
