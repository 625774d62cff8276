/**
 * The database seeder, semilla_firebase.js. Under `monitoreo_consumo` it
 * writes the default parameters, notice types and offices, each subtree
 * only when it does not exist yet; a failing read or write of one subtree
 * is caught and the seeder goes on with the next.
 */
module Seeding {
  import opened Feeds
  import Records
  import opened EdgeAlerts
  import EdgeSubscriber
  import SensorEdge
  import Publisher

  /** A seeded office; its notices and summaries are kept as the keys of those subtrees. */
  datatype Oficina = Oficina(nombre: string, sector: string, baja: bool, avisos: seq<string>, resumenes: seq<string>,
                             estadosDispositivos: map<string, bool>)

  /** What the seeder writes at one path, or what was found there. */
  datatype Node =
    | Params(params: Config)
    | TiposAvisos(tipos: map<string, Records.TipoAviso>)
    | Oficinas(oficinas: map<string, Oficina>)

  /** How one step's I/O goes: the existence read and the write may each fail. */
  datatype Io = Io(readFails: bool, writeFails: bool)

  function Succeeds(io: Io): bool { !io.readFails && !io.writeFails }

  const ParamsPorDefecto: Config := Config(8.0, 20.0, 25.0, 21.5, 220.0, 0.25)

  /** The keys of the default notice types, in alert order. */
  const Claves: seq<string> := ["0", "1", "2", "3", "4", "5", "6", "7", "8", "9", "10", "11", "12"]

  const TiposAvisosPorDefecto: map<string, Records.TipoAviso> := map[
    "0" := Records.TipoAviso("Luces apagadas", "Estado de luces desactivado", 2),
    "1" := Records.TipoAviso("Luces encendidas", "Detección de presencia", 1),
    "2" := Records.TipoAviso("Luces apagadas", "Ausencia detectada", 2),
    "3" := Records.TipoAviso("Aire apagado", "Estado de aire acondicionado desactivado", 2),
    "4" := Records.TipoAviso("Aire encendido", "Temperatura elevada con presencia", 3),
    "5" := Records.TipoAviso("Aire apagado", "Condiciones para aire no cumplidas", 2),
    "6" := Records.TipoAviso("Consumo anómalo", "Corriente alta sin presencia", 3),
    "7" := Records.TipoAviso("Corte de energía", "Corriente en 0 por corte de energía", 3),
    "8" := Records.TipoAviso("Sensor no responde", "No se recibieron datos del sensor", 3),
    "9" := Records.TipoAviso("Alerta de corriente", "Consumo elevado de amperios", 3),
    "10" := Records.TipoAviso("Oficina agregada", "Se agregó una nueva oficina", 1),
    "11" := Records.TipoAviso("Oficina eliminada", "Se eliminó una oficina", 1),
    "12" := Records.TipoAviso("Configuración modificada", "Se modificó la configuración del sistema", 1)]

  function OficinaPorDefecto(id: string): Oficina
  {
    Oficina("Oficina " + id, "Informatica", false, [], [], BothOn)
  }

  const OficinasPorDefecto: map<string, Oficina> := map[
    "A" := OficinaPorDefecto("A"),
    "B" := OficinaPorDefecto("B"),
    "C" := OficinaPorDefecto("C")]

  /** The three paths, in the order the seeder visits them, and what it writes at each. */
  const Rutas: seq<string> := ["params", "tipos_avisos", "oficinas"]

  function PorDefecto(i: nat): Node
    requires i < 3
  {
    if i == 0 then Params(ParamsPorDefecto)
    else if i == 1 then TiposAvisos(TiposAvisosPorDefecto)
    else Oficinas(OficinasPorDefecto)
  }

  /** One guarded step: write `value` at `path` when the path is absent and the I/O succeeds. */
  function Sembrar(db: map<string, Node>, path: string, value: Node, io: Io): (db': map<string, Node>)
  {
    if path in db || !Succeeds(io) then db else db[path := value]
  }

  /** The database after a run of the seeder, given the I/O of its three steps. */
  function Sembrado(db: map<string, Node>, ios: seq<Io>): map<string, Node>
    requires |ios| == 3
  {
    Sembrar(Sembrar(Sembrar(db, Rutas[0], PorDefecto(0), ios[0]), Rutas[1], PorDefecto(1), ios[1]),
            Rutas[2], PorDefecto(2), ios[2])
  }

  /**
   * Each path ends up holding what it held if it existed, the default if
   * it was absent and its step succeeded, and nothing otherwise; no other
   * path changes.
   */
  lemma SeedsOnlyAbsentPaths(db: map<string, Node>, ios: seq<Io>)
    requires |ios| == 3
    ensures var db' := Sembrado(db, ios);
      && (forall i | 0 <= i < 3 && Rutas[i] in db :: Rutas[i] in db' && db'[Rutas[i]] == db[Rutas[i]])
      && (forall i | 0 <= i < 3 && Rutas[i] !in db ::
            (Rutas[i] in db' <==> Succeeds(ios[i])) && (Rutas[i] in db' ==> db'[Rutas[i]] == PorDefecto(i)))
      && (forall p | p !in Rutas :: (p in db' <==> p in db) && (p in db ==> db'[p] == db[p]))
  {
    var d0 := Sembrar(db, Rutas[0], PorDefecto(0), ios[0]);
    var d1 := Sembrar(d0, Rutas[1], PorDefecto(1), ios[1]);
    assert Rutas[0] != Rutas[1] && Rutas[1] != Rutas[2] && Rutas[0] != Rutas[2];
    forall i | 0 <= i < 3 && Rutas[i] !in db
      ensures var db' := Sembrado(db, ios);
        (Rutas[i] in db' <==> Succeeds(ios[i])) && (Rutas[i] in db' ==> db'[Rutas[i]] == PorDefecto(i))
    {
      assert Rutas[i] in d0 <==> i == 0 && Succeeds(ios[0]);
      assert Rutas[i] in d1 <==> i < 2 && Succeeds(ios[i]);
    }
  }

  /** A run that succeeds leaves a database a second run does not change: seeding twice is seeding once. */
  lemma SeedingIsIdempotent(db: map<string, Node>, first: seq<Io>, second: seq<Io>)
    requires |first| == 3 && |second| == 3
    requires Succeeds(first[0]) && Succeeds(first[1]) && Succeeds(first[2])
    ensures Sembrado(Sembrado(db, first), second) == Sembrado(db, first)
  {
    var db' := Sembrado(db, first);
    assert forall i | 0 <= i < 3 :: Rutas[i] in db';
  }

  /**
   * A failed step only loses its own path: a run whose first step fails
   * seeds the other two exactly as a fully successful run would.
   */
  lemma FailureDoesNotSkipLaterSteps(db: map<string, Node>, ios: seq<Io>, ok: seq<Io>)
    requires |ios| == 3 && |ok| == 3
    requires !Succeeds(ios[0]) && Succeeds(ios[1]) && Succeeds(ios[2])
    requires Succeeds(ok[0]) && Succeeds(ok[1]) && Succeeds(ok[2])
    ensures forall i | 1 <= i < 3 :: (Rutas[i] in Sembrado(db, ios) <==> Rutas[i] in Sembrado(db, ok))
    ensures forall i | 1 <= i < 3 && Rutas[i] in Sembrado(db, ios) :: Sembrado(db, ios)[Rutas[i]] == Sembrado(db, ok)[Rutas[i]]
  {
    SeedsOnlyAbsentPaths(db, ios);
    SeedsOnlyAbsentPaths(db, ok);
  }

  /** The default notice types are thirteen, keyed "0" to "12". */
  lemma DefaultNoticeKeys()
    ensures Distinct(Claves) && |Claves| == 13
    ensures TiposAvisosPorDefecto.Keys == set k | k in Claves
  {
  }

  /** Every default notice type has impact 1, 2 or 3. */
  lemma DefaultNoticeImpacts()
    ensures forall k | k in TiposAvisosPorDefecto :: 1 <= TiposAvisosPorDefecto[k].impacto <= 3
  {
  }

  /** The default offices: A, B and C, active, with no notices or summaries and both devices on. */
  lemma DefaultOffices()
    ensures OficinasPorDefecto.Keys == {"A", "B", "C"}
    ensures forall o | o in OficinasPorDefecto ::
              var of := OficinasPorDefecto[o];
              !of.baja && of.avisos == [] && of.resumenes == [] && of.estadosDispositivos == BothOn
  {
  }

  /** The seeded parameters are the ones mqtt/publisher/main.go starts with. */
  lemma SeededParamsAreThePublisherDefaults()
    ensures ParamsPorDefecto == Publisher.DefaultParams
  {
  }

  /**
   * Notice type k names the alert of index k: for the ten alerts the
   * edge detector raises, the seeded reason is the reason sensor_edge.go
   * writes, and for the first seven, which carry no number, so is the
   * detail.
   */
  lemma TypesFollowAlertOrder(a: Alert)
    ensures Claves[Index(a)] in TiposAvisosPorDefecto
    ensures TiposAvisosPorDefecto[Claves[Index(a)]].motivo == SensorEdge.EventoOf("", 0, a).motivo
    ensures Index(a) < 7 ==>
              SensorEdge.EventoOf("", 0, a).detalle == Records.Text(TiposAvisosPorDefecto[Claves[Index(a)]].detalle)
  {
  }

  /** The seeded keys as Go may enumerate them: "1" before "0". */
  const OtroOrden: seq<string> := ["1", "0", "2", "3", "4", "5", "6", "7", "8", "9", "10", "11", "12"]

  /** OtroOrden lists each seeded notice type once: a list KeysOf may return for them. */
  lemma OtroOrdenEnumeratesTheKeys()
    ensures Distinct(OtroOrden)
    ensures forall k :: k in OtroOrden <==> k in TiposAvisosPorDefecto
  {
    DefaultNoticeKeys();
    assert forall k :: k in OtroOrden <==> k in Claves;
    OtroOrdenDistinct();
  }

  lemma OtroOrdenDistinct()
    ensures Distinct(OtroOrden)
  {
  }

  /**
   * The configurable subscribers take notice type ids by position from
   * the keys of the decoded map, in Go's map order. With the seeded keys
   * enumerated as OtroOrden (an example of one such order), the lights-on alert is filed under type "0",
   * whose reason is "Luces apagadas".
   */
  lemma PositionalIdsCanMislabel(now: int)
    ensures EdgeSubscriber.AvisosFor([LightsOn], OtroOrden, now)
            == EdgeSubscriber.Avisos([EdgeSubscriber.Aviso(now, "0", EdgeSubscriber.NoExtra)])
    ensures TiposAvisosPorDefecto["0"].motivo == "Luces apagadas"
  {
    assert OtroOrden[Index(LightsOn)] == "0";
    NoticeZeroIsLightsOff();
  }

  lemma NoticeZeroIsLightsOff()
    ensures TiposAvisosPorDefecto["0"].motivo == "Luces apagadas"
  {
  }

  /** The realtime database, as the seeder sees the `monitoreo_consumo` node. */
  class Database {
    var tree: map<string, Node>

    constructor (tree: map<string, Node>)
      ensures this.tree == tree
    {
      this.tree := tree;
    }

    /** One try block: read the path, write the default if it did not exist; a failure is swallowed. */
    method SembrarRuta(path: string, value: Node, io: Io)
      modifies this
      ensures tree == Sembrar(old(tree), path, value, io)
    {
      if io.readFails {
        return;
      }
      if path !in tree {
        if io.writeFails {
          return;
        }
        tree := tree[path := value];
      }
    }

    /** inicializarBaseDeDatos: the three guarded steps, in order. */
    method InicializarBaseDeDatos(ios: seq<Io>)
      requires |ios| == 3
      modifies this
      ensures tree == Sembrado(old(tree), ios)
    {
      SembrarRuta(Rutas[0], PorDefecto(0), ios[0]);
      SembrarRuta(Rutas[1], PorDefecto(1), ios[1]);
      SembrarRuta(Rutas[2], PorDefecto(2), ios[2]);
    }
  }
}
