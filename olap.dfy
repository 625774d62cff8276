/**
 * The dimension helpers and the cube bookkeeping of the browser's OLAP
 * engine, resources/assets/olap-multidimensional.js: the hour and day
 * buckets, the office lookups, the time levels, the cell keys and the
 * 31 x 5 x 4 grid of initial cells, and the cube's metadata counters.
 */
module Olap {
  import opened Base

  // ---------------------------------------------------------------------
  // Buckets and lookups
  // ---------------------------------------------------------------------

  /** getTurno: [6, 12) morning, [12, 18) afternoon, any other hour night. */
  function Turno(hora: int): (t: string)
    ensures t == "mañana" <==> 6 <= hora < 12
    ensures t == "tarde" <==> 12 <= hora < 18
    ensures t == "noche" <==> !(6 <= hora < 18)
  {
    if 6 <= hora < 12 then "mañana" else if 12 <= hora < 18 then "tarde" else "noche"
  }

  /** getHoraPico: [9, 12) and [17, 20) peak, [1, 6) valley, otherwise normal. */
  function HoraPico(hora: int): (p: string)
    ensures p == "pico" <==> 9 <= hora < 12 || 17 <= hora < 20
    ensures p == "valle" <==> 1 <= hora < 6
    ensures p == "normal" <==> !(9 <= hora < 12 || 17 <= hora < 20) && !(1 <= hora < 6)
  {
    if 9 <= hora < 12 || 17 <= hora < 20 then "pico" else if 1 <= hora < 6 then "valle" else "normal"
  }

  /** getPeriodo: Sunday (0) and Saturday (6) are the weekend; every other value is a working day. */
  function Periodo(diaSemana: int): (p: string)
    ensures p == "fin_semana" <==> diaSemana == 0 || diaSemana == 6
    ensures p == "laboral" <==> diaSemana != 0 && diaSemana != 6
  {
    if diaSemana == 0 || diaSemana == 6 then "fin_semana" else "laboral"
  }

  /** Valley hours are night hours, and the last two peak hours, 18 and 19, are night hours too. */
  lemma BucketsOverlap(hora: int)
    ensures HoraPico(hora) == "valle" ==> Turno(hora) == "noche"
    ensures hora == 18 || hora == 19 ==> HoraPico(hora) == "pico" && Turno(hora) == "noche"
  {
  }

  const Departamentos: map<string, string> := map["A" := "IT", "B" := "Ventas", "C" := "Administración"]
  const Secciones: map<string, string> := map["A" := "Desarrollo", "B" := "Marketing", "C" := "Finanzas"]

  /** getDepartamento: A, B and C from the table, every other office Operaciones. */
  function Departamento(oficina: string): (d: string)
    ensures oficina in Departamentos ==> d == Departamentos[oficina]
    ensures oficina !in Departamentos ==> d == "Operaciones"
  {
    if oficina in Departamentos then Departamentos[oficina] else "Operaciones"
  }

  /** getSeccion: A, B and C from the table, every other office Soporte. */
  function Seccion(oficina: string): (s: string)
    ensures oficina in Secciones ==> s == Secciones[oficina]
    ensures oficina !in Secciones ==> s == "Soporte"
  {
    if oficina in Secciones then Secciones[oficina] else "Soporte"
  }

  /** An example over the fixed tables: offices D and E, which the location dimension lists, fall to the defaults. */
  lemma UnlistedOfficesGetDefaults()
    ensures Departamento("A") == "IT" && Seccion("A") == "Desarrollo"
    ensures Departamento("D") == "Operaciones" && Seccion("E") == "Soporte"
  {
  }

  /** generateTimeLevel: the values of a time level; an unknown level has none. */
  function TimeLevel(level: string): (r: seq<int>)
    ensures level == "año" ==> r == [2024, 2025]
    ensures level == "mes" ==> |r| == 12 && forall i | 0 <= i < 12 :: r[i] == i + 1
    ensures level == "día" ==> |r| == 31 && forall i | 0 <= i < 31 :: r[i] == i + 1
    ensures level == "hora" ==> |r| == 24 && forall i | 0 <= i < 24 :: r[i] == i
    ensures level !in {"año", "mes", "día", "hora"} ==> r == []
  {
    if level == "año" then [2024, 2025]
    else if level == "mes" then seq(12, i => i + 1)
    else if level == "día" then seq(31, i => i + 1)
    else if level == "hora" then seq(24, i => i)
    else []
  }

  /** Every hour level value has a shift, and the shifts split the day 6, 6 and 12 hours. */
  lemma HoursHaveShifts()
    ensures forall h | h in TimeLevel("hora") :: 0 <= h < 24
    ensures |set h | 0 <= h < 24 && Turno(h) == "mañana"| == 6
  {
    assert (set h | 0 <= h < 24 && Turno(h) == "mañana") == {6, 7, 8, 9, 10, 11};
  }

  // ---------------------------------------------------------------------
  // Cell keys
  // ---------------------------------------------------------------------

  /** One coordinate of a cell: dimension, level and the value as its template string renders it. */
  datatype Coordenada = Coordenada(dim: string, nivel: string, valor: string)

  function Parte(c: Coordenada): string
  {
    c.dim + "_" + c.nivel + "_" + c.valor
  }

  predicate SinBarra(s: string) { forall i | 0 <= i < |s| :: s[i] != '|' }

  lemma ConcatSinBarra(a: string, b: string)
    requires SinBarra(a) && SinBarra(b)
    ensures SinBarra(a + b)
  {
    forall i | 0 <= i < |a + b| ensures (a + b)[i] != '|' {
      if i >= |a| {
        assert (a + b)[i] == b[i - |a|];
      }
    }
  }

  lemma ParteSinBarra(c: Coordenada)
    requires SinBarra(c.dim) && SinBarra(c.nivel) && SinBarra(c.valor)
    ensures SinBarra(Parte(c))
  {
    ConcatSinBarra(c.dim, "_");
    ConcatSinBarra(c.dim + "_", c.nivel);
    ConcatSinBarra(c.dim + "_" + c.nivel, "_");
    ConcatSinBarra(c.dim + "_" + c.nivel + "_", c.valor);
  }

  /** A cell's coordinates, one per dimension, in the order the dimension objects list them. */
  datatype Dimensiones = Dimensiones(tiempo: Coordenada, ubicacion: Coordenada, dispositivo: Coordenada)

  /** generateCellKey: the coordinates, in dimension order, as `dim_nivel_valor` joined by '|'. */
  function CellKey(d: Dimensiones): string
  {
    Parte(d.tiempo) + ("|" + (Parte(d.ubicacion) + ("|" + Parte(d.dispositivo))))
  }

  const Oficinas: seq<string> := ["A", "B", "C", "D", "E"]
  const Categorias: seq<string> := ["Iluminación", "Climatización", "Equipos", "Electrónica"]

  /** A day number as a template string renders it; days have at most two digits. */
  function DayText(d: nat): (t: string)
    requires d < 100
    ensures forall i | 0 <= i < |t| :: IsDigit(t[i])
  {
    if d < 10 then [DigitChar(d)] else [DigitChar(d / 10), DigitChar(d % 10)]
  }

  /** The rendering agrees with the decimal rendering of any number. */
  lemma DayTextIsDecimal(d: nat)
    requires d < 100
    ensures DayText(d) == DecimalString(d)
  {
    if d >= 10 {
      assert DecimalString(d / 10) == [DigitChar(d / 10)];
    }
  }

  lemma DayTextInjective(d1: nat, d2: nat)
    requires d1 < 100 && d2 < 100 && DayText(d1) == DayText(d2)
    ensures d1 == d2
  {
    DayTextIsDecimal(d1);
    DayTextIsDecimal(d2);
    DecimalStringInjective(d1, d2);
  }

  /** The cell of day `dia`, office `oficina` and device category `categoria`. */
  function Combinacion(dia: nat, oficina: string, categoria: string): Dimensiones
    requires dia < 100
  {
    Dimensiones(Coordenada("tiempo", "día", DayText(dia)),
                Coordenada("ubicacion", "oficina", oficina),
                Coordenada("dispositivo", "categoria", categoria))
  }

  /** The grid has 31 x 5 x 4 cells. */
  const TotalCombinaciones: nat := 620

  /** Combination j of the nested loops: day j / 20 + 1, then office and category of the remainder. */
  function CombinacionEn(j: nat): Dimensiones
    requires j < TotalCombinaciones
  {
    var r := j % 20;
    Combinacion(j / 20 + 1, Oficinas[r / 4], Categorias[r % 4])
  }

  /** When the text before a '|' has no '|', the first '|' splits the string back. */
  lemma SplitAtBar(a: string, b: string, a': string, b': string)
    requires SinBarra(a) && SinBarra(a')
    requires a + ("|" + b) == a' + ("|" + b')
    ensures a == a' && b == b'
  {
    var s, s' := a + ("|" + b), a' + ("|" + b');
    assert s[|a|] == '|' && s'[|a'|] == '|';
    assert a == s[..|a|] && a' == s'[..|a'|];
    assert b == s[|a| + 1..] && b' == s'[|a'| + 1..];
  }

  lemma PrefixCancels(p: string, x: string, y: string)
    requires p + x == p + y
    ensures x == y
  {
    assert x == (p + x)[|p|..] && y == (p + y)[|p|..];
  }

  /** Two coordinates with the same dimension and level and the same rendering have the same value. */
  lemma ParteCancels(c1: Coordenada, c2: Coordenada)
    requires c1.dim == c2.dim && c1.nivel == c2.nivel && Parte(c1) == Parte(c2)
    ensures c1.valor == c2.valor
  {
    PrefixCancels(c1.dim + "_" + c1.nivel + "_", c1.valor, c2.valor);
  }

  /** The key of a grid cell determines its day, office and category. */
  lemma CombinationKeysAreInjective(d1: nat, o1: string, c1: string, d2: nat, o2: string, c2: string)
    requires d1 < 100 && d2 < 100 && SinBarra(o1) && SinBarra(o2)
    requires CellKey(Combinacion(d1, o1, c1)) == CellKey(Combinacion(d2, o2, c2))
    ensures d1 == d2 && o1 == o2 && c1 == c2
  {
    var k1, k2 := Combinacion(d1, o1, c1), Combinacion(d2, o2, c2);
    ParteSinBarra(k1.tiempo);
    ParteSinBarra(k2.tiempo);
    SplitAtBar(Parte(k1.tiempo), Parte(k1.ubicacion) + ("|" + Parte(k1.dispositivo)),
               Parte(k2.tiempo), Parte(k2.ubicacion) + ("|" + Parte(k2.dispositivo)));
    ParteSinBarra(k1.ubicacion);
    ParteSinBarra(k2.ubicacion);
    SplitAtBar(Parte(k1.ubicacion), Parte(k1.dispositivo), Parte(k2.ubicacion), Parte(k2.dispositivo));
    ParteCancels(k1.tiempo, k2.tiempo);
    DayTextInjective(d1, d2);
    ParteCancels(k1.ubicacion, k2.ubicacion);
    ParteCancels(k1.dispositivo, k2.dispositivo);
  }

  /** The grid in the order the nested loops produce it. */
  const Grilla: seq<Dimensiones> := seq(TotalCombinaciones, j requires 0 <= j < TotalCombinaciones => CombinacionEn(j))

  lemma NamesAreDistinct(o1: nat, o2: nat, c1: nat, c2: nat)
    requires o1 < 5 && o2 < 5 && c1 < 4 && c2 < 4
    ensures Oficinas[o1] == Oficinas[o2] ==> o1 == o2
    ensures Categorias[c1] == Categorias[c2] ==> c1 == c2
    ensures SinBarra(Oficinas[o1])
  {
  }

  /** Index j of the grid is day d + 1, office o and category c with j == 20 d + 4 o + c. */
  lemma GridDecode(j: nat) returns (d: nat, o: nat, c: nat)
    requires j < TotalCombinaciones
    ensures d < 31 && o < 5 && c < 4 && j == d * 20 + o * 4 + c
    ensures Grilla[j] == Combinacion(d + 1, Oficinas[o], Categorias[c])
  {
    var r := j % 20;
    d, o, c := j / 20, r / 4, r % 4;
    assert r == 4 * o + c;
  }

  /** The 620 cells of the grid have pairwise distinct keys: no initial cell overwrites another. */
  lemma GridKeysAreDistinct(j1: nat, j2: nat)
    requires j1 < TotalCombinaciones && j2 < TotalCombinaciones
    requires CellKey(Grilla[j1]) == CellKey(Grilla[j2])
    ensures j1 == j2
  {
    var d1, o1, c1 := GridDecode(j1);
    var d2, o2, c2 := GridDecode(j2);
    NamesAreDistinct(o1, o2, c1, c2);
    NamesAreDistinct(o2, o1, c2, c1);
    CombinationKeysAreInjective(d1 + 1, Oficinas[o1], Categorias[c1], d2 + 1, Oficinas[o2], Categorias[c2]);
  }

  /** Day d + 1, office o and category c sit at index 20 d + 4 o + c of the grid. */
  lemma GridAt(d: nat, o: nat, c: nat)
    requires d < 31 && o < 5 && c < 4
    ensures d * 20 + o * 4 + c < TotalCombinaciones
    ensures Grilla[d * 20 + o * 4 + c] == Combinacion(d + 1, Oficinas[o], Categorias[c])
  {
    var j := d * 20 + o * 4 + c;
    DivModUnique(j, 20, d, o * 4 + c);
    DivModUnique(o * 4 + c, 4, o, c);
  }

  /** generateDimensionCombinations: days 1 to 31, then offices A to E, then the four categories. */
  method GenerateDimensionCombinations() returns (combinaciones: seq<Dimensiones>)
    ensures combinaciones == Grilla
  {
    var dias := TimeLevel("día");
    combinaciones := [];
    for di := 0 to |dias|
      invariant combinaciones == Grilla[..di * 20]
    {
      ghost var d20 := di * 20;
      assert (di + 1) * 20 == d20 + 20;
      for oi := 0 to |Oficinas|
        invariant combinaciones == Grilla[..d20 + oi * 4]
      {
        ghost var o4 := oi * 4;
        assert (oi + 1) * 4 == o4 + 4;
        for ci := 0 to |Categorias|
          invariant combinaciones == Grilla[..d20 + o4 + ci]
        {
          GridAt(di, oi, ci);
          GridPrefixStep(d20 + o4 + ci);
          combinaciones := combinaciones + [Combinacion(dias[di], Oficinas[oi], Categorias[ci])];
        }
      }
    }
  }

  lemma GridPrefixStep(n: nat)
    requires n < TotalCombinaciones
    ensures Grilla[..n + 1] == Grilla[..n] + [Grilla[n]]
  {
  }

  // ---------------------------------------------------------------------
  // The cube
  // ---------------------------------------------------------------------

  /** A cell: its coordinates and, per measure, the values recorded. */
  datatype Cell = Cell(dimensiones: Dimensiones, measures: map<string, seq<real>>)

  /** The keys of the cells that hold at least one measure. */
  function Pobladas(cells: map<string, Cell>): set<string>
  {
    set k | k in cells && |cells[k].measures| > 0
  }

  /** The cells after initializeDimensionCombinations: an empty cell under each combination's key, a later one overwriting an earlier. */
  function Celdas(combinaciones: seq<Dimensiones>): map<string, Cell>
  {
    if combinaciones == [] then map[]
    else
      var n := |combinaciones| - 1;
      Celdas(combinaciones[..n])[CellKey(combinaciones[n]) := Cell(combinaciones[n], map[])]
  }

  predicate KeysDistinct(combinaciones: seq<Dimensiones>)
  {
    forall j1, j2 | 0 <= j1 < j2 < |combinaciones| :: CellKey(combinaciones[j1]) != CellKey(combinaciones[j2])
  }

  /** A key holds a cell exactly when some combination has that key. */
  lemma {:induction false} CeldasKeys(combinaciones: seq<Dimensiones>, k: string)
    ensures k in Celdas(combinaciones) <==> exists j | 0 <= j < |combinaciones| :: k == CellKey(combinaciones[j])
  {
    if combinaciones != [] {
      var n := |combinaciones| - 1;
      CeldasKeys(combinaciones[..n], k);
      if exists j | 0 <= j < n :: k == CellKey(combinaciones[..n][j]) {
        var j :| 0 <= j < n && k == CellKey(combinaciones[..n][j]);
        assert combinaciones[..n][j] == combinaciones[j];
      }
      if exists j | 0 <= j < |combinaciones| :: k == CellKey(combinaciones[j]) {
        var j :| 0 <= j < |combinaciones| && k == CellKey(combinaciones[j]);
        if j < n {
          assert combinaciones[..n][j] == combinaciones[j];
        }
      }
    }
  }

  /** No initial cell holds a measure. */
  lemma {:induction false} CeldasAreEmpty(combinaciones: seq<Dimensiones>)
    ensures forall k | k in Celdas(combinaciones) :: Celdas(combinaciones)[k].measures == map[]
  {
    if combinaciones != [] {
      CeldasAreEmpty(combinaciones[..|combinaciones| - 1]);
    }
  }

  /** With distinct keys there is one cell per combination, holding that combination. */
  lemma {:induction false} CeldasOnePerCombination(combinaciones: seq<Dimensiones>)
    requires KeysDistinct(combinaciones)
    ensures |Celdas(combinaciones)| == |combinaciones|
    ensures forall j | 0 <= j < |combinaciones| :: CellKey(combinaciones[j]) in Celdas(combinaciones)
              && Celdas(combinaciones)[CellKey(combinaciones[j])] == Cell(combinaciones[j], map[])
  {
    if combinaciones != [] {
      var n := |combinaciones| - 1;
      var init := combinaciones[..n];
      assert forall j | 0 <= j < n :: init[j] == combinaciones[j];
      assert KeysDistinct(init);
      CeldasOnePerCombination(init);
      CeldasKeys(init, CellKey(combinaciones[n]));
    }
  }

  /** After initialization the cube has 620 empty cells, one per grid combination. */
  lemma InitialCubeHas620Cells()
    ensures |Celdas(Grilla)| == TotalCombinaciones
    ensures forall j | 0 <= j < TotalCombinaciones :: CellKey(Grilla[j]) in Celdas(Grilla)
              && Celdas(Grilla)[CellKey(Grilla[j])] == Cell(Grilla[j], map[])
    ensures Pobladas(Celdas(Grilla)) == {}
  {
    forall j1, j2 | 0 <= j1 < j2 < |Grilla|
      ensures CellKey(Grilla[j1]) != CellKey(Grilla[j2])
    {
      if CellKey(Grilla[j1]) == CellKey(Grilla[j2]) {
        GridKeysAreDistinct(j1, j2);
      }
    }
    CeldasOnePerCombination(Grilla);
    CeldasAreEmpty(Grilla);
  }

  class Cube {
    var cells: map<string, Cell>
    var totalCells: nat
    var populatedCells: nat
    var lastUpdate: int

    constructor ()
      ensures cells == map[] && totalCells == 0 && populatedCells == 0
    {
      cells := map[];
      totalCells := 0;
      populatedCells := 0;
      lastUpdate := 0;
    }

    /** initializeCubeStructure: empty cells and zero counters, then initializeDimensionCombinations over the grid. */
    method InitializeCubeStructure(ahora: int)
      modifies this
      ensures cells == Celdas(Grilla)
      ensures lastUpdate == ahora && totalCells == 0 && populatedCells == 0
    {
      cells := map[];
      var combinaciones := GenerateDimensionCombinations();
      for i := 0 to |combinaciones|
        invariant cells == Celdas(combinaciones[..i])
      {
        assert combinaciones[..i + 1][..i] == combinaciones[..i];
        cells := cells[CellKey(combinaciones[i]) := Cell(combinaciones[i], map[])];
      }
      assert combinaciones[..|combinaciones|] == combinaciones;
      lastUpdate := ahora;
      totalCells := 0;
      populatedCells := 0;
    }

    /** updateCubeMetadata: the time, the number of cells and the number of cells holding a measure. */
    method UpdateCubeMetadata(ahora: int)
      modifies this`lastUpdate, this`totalCells, this`populatedCells
      ensures lastUpdate == ahora && totalCells == |cells|
      ensures populatedCells == |Pobladas(cells)| && populatedCells <= totalCells
    {
      lastUpdate := ahora;
      totalCells := |cells|;
      var count := 0;
      var todo := cells.Keys;
      while todo != {}
        invariant todo <= cells.Keys
        invariant count == |set k | k in cells && k !in todo && |cells[k].measures| > 0|
        invariant count <= |cells| - |todo|
        decreases |todo|
      {
        var k :| k in todo;
        var before := set x | x in cells && x !in todo && |cells[x].measures| > 0;
        var after := set x | x in cells && x !in todo - {k} && |cells[x].measures| > 0;
        if |cells[k].measures| > 0 {
          assert after == before + {k};
          count := count + 1;
        } else {
          assert after == before;
        }
        todo := todo - {k};
      }
      assert (set k | k in cells && k !in todo && |cells[k].measures| > 0) == Pobladas(cells);
      populatedCells := count;
    }
  }
}
