/**
 * The grid (`Entorno`): its extent, the home border, the food cells and the
 * per-cell occupant registry that arbitrates contested food.
 */
module Entornos {
  import opened Tipos
  import opened Aleatorio

  /**
   * A particle as the occupant registry records it: by its id, which the
   * controller keeps unique, and its mutation, the only attribute the
   * arbitration reads.
   */
  datatype Ocupante = Ocupante(id: int, mutacion: Mutacion)

  /** The food cells, the remaining count and the occupant registry together. */
  datatype Despensa = Despensa(posiciones: set<Celda>, actual: int, registro: map<Celda, seq<Ocupante>>)

  /** The four sides of the border, in the order `random.choice` sees them. */
  datatype Borde = Arriba | Abajo | Izquierda | Derecha

  const BORDES: seq<Borde> := [Arriba, Abajo, Izquierda, Derecha]

  /** A cell inside a grid of this extent. */
  predicate DentroDe(ancho: int, alto: int, c: Celda) {
    0 <= c.0 < ancho && 0 <= c.1 < alto
  }

  /** A cell on the first or last row or column: a home cell. */
  predicate EnBorde(ancho: int, alto: int, c: Celda) {
    c.0 == 0 || c.0 == ancho - 1 || c.1 == 0 || c.1 == alto - 1
  }

  /** A cell off the border: food may only be placed here. */
  predicate EsInterior(ancho: int, alto: int, c: Celda) {
    1 <= c.0 < ancho - 1 && 1 <= c.1 < alto - 1
  }

  /** How many interior cells a grid of this extent has. */
  function NumInteriores(ancho: int, alto: int): nat {
    Max(0, ancho - 2) * Max(0, alto - 2)
  }

  /** The cells `(x, y)` for `y` from `y0` up to `alto - 2`, in that order. */
  function Columna(x: int, y0: int, alto: int): (r: seq<Celda>)
    ensures |r| == Max(0, alto - 1 - y0)
    ensures SinRepetidos(r)
    ensures forall c :: c in r <==> c.0 == x && y0 <= c.1 < alto - 1
    decreases alto - 1 - y0
  {
    if y0 >= alto - 1 then [] else [(x, y0)] + Columna(x, y0 + 1, alto)
  }

  /** The interior columns from `x0` up to `ancho - 2`, concatenated in that order. */
  function Columnas(x0: int, ancho: int, alto: int): (r: seq<Celda>)
    requires x0 >= 1
    ensures |r| == Max(0, ancho - 1 - x0) * Max(0, alto - 2)
    ensures SinRepetidos(r)
    ensures forall c :: c in r <==> x0 <= c.0 < ancho - 1 && 1 <= c.1 < alto - 1
    decreases ancho - 1 - x0
  {
    if x0 >= ancho - 1 then []
    else
      var col := Columna(x0, 1, alto);
      var resto := Columnas(x0 + 1, ancho, alto);
      ProductoSiguiente(ancho - 2 - x0, Max(0, alto - 2));
      ColumnasDisjuntas(col, resto, x0);
      SinRepetidosConcat(col, resto);
      col + resto
  }

  lemma ProductoSiguiente(n: int, m: nat)
    ensures Max(0, n + 1) * m == (if n >= 0 then m + Max(0, n) * m else 0)
  {
    if n >= 0 {
      assert (n + 1) * m == m + n * m;
    }
  }

  lemma ColumnasDisjuntas(col: seq<Celda>, resto: seq<Celda>, x0: int)
    requires forall c :: c in col ==> c.0 == x0
    requires forall c :: c in resto ==> c.0 > x0
    ensures forall i, j :: 0 <= i < |col| && 0 <= j < |resto| ==> col[i] != resto[j]
  {
    forall i, j | 0 <= i < |col| && 0 <= j < |resto| ensures col[i] != resto[j] {
      assert col[i] in col && resto[j] in resto;
    }
  }

  /** The interior cells, column by column, as the list comprehension builds them. */
  function Interiores(ancho: int, alto: int): (r: seq<Celda>)
    ensures |r| == NumInteriores(ancho, alto)
    ensures SinRepetidos(r)
    ensures forall c :: c in r <==> EsInterior(ancho, alto, c)
  {
    Columnas(1, ancho, alto)
  }

  lemma SinRepetidosConcat<T>(a: seq<T>, b: seq<T>)
    requires SinRepetidos(a) && SinRepetidos(b)
    requires forall i, j :: 0 <= i < |a| && 0 <= j < |b| ==> a[i] != b[j]
    ensures SinRepetidos(a + b)
  {
    forall i, j | 0 <= i < j < |a + b| ensures (a + b)[i] != (a + b)[j] {
      if j < |a| {
      } else if i >= |a| {
        assert (a + b)[i] == b[i - |a|] && (a + b)[j] == b[j - |a|];
      } else {
        assert (a + b)[j] == b[j - |a|];
      }
    }
  }

  /**
   * How many cells receive food: the truncated share of the interior, at least
   * one when the interior is not empty, and never more than the interior.
   */
  function CantidadComida(interior: nat, p: Porcentaje): (k: nat)
    requires p.den > 0
    ensures k <= interior
    ensures interior == 0 ==> k == 0
    ensures interior > 0 && p.num >= 0 ==> k >= 1
  {
    var parte := Truncar(interior * p.num, p.den);
    if interior == 0 || parte < 0 then 0 else Min(Max(parte, 1), interior)
  }

  /** The picked cells and the cells left over after a draw without replacement. */
  datatype Seleccion = Seleccion(elegidas: seq<Celda>, resto: seq<Celda>)

  /** Move the cell at index `i` of what is left to the end of what is picked. */
  function Extraer(s: Seleccion, i: nat): (r: Seleccion)
    requires i < |s.resto|
    ensures |r.elegidas| == |s.elegidas| + 1 && |r.resto| == |s.resto| - 1
  {
    Seleccion(s.elegidas + [s.resto[i]], s.resto[..i] + s.resto[i + 1..])
  }

  /**
   * `random.sample(pool, k)`: `k` draws without replacement, the j-th taking the
   * cell at the drawn index among those still left.
   */
  function Muestra(pool: seq<Celda>, k: nat, fuente: Fuente, u: nat): (r: Seleccion)
    requires k <= |pool|
    ensures |r.elegidas| == k && |r.resto| == |pool| - k
    decreases k
  {
    if k == 0 then Seleccion([], pool)
    else
      var s := Muestra(pool, k - 1, fuente, u);
      Extraer(s, fuente(u + k - 1, |s.resto|))
  }

  /** Sample `k` extends sample `k - 1` by the cell at the drawn index of what was left. */
  lemma MuestraSiguiente(pool: seq<Celda>, k: nat, fuente: Fuente, u: nat)
    requires 0 < k <= |pool|
    ensures var s := Muestra(pool, k - 1, fuente, u);
            Muestra(pool, k, fuente, u) == Extraer(s, fuente(u + k - 1, |s.resto|))
  {
  }

  lemma QuitarUno<T>(s: seq<T>, i: nat)
    requires i < |s|
    ensures multiset(s[..i] + s[i + 1..]) + multiset{s[i]} == multiset(s)
  {
    assert s == s[..i] + [s[i]] + s[i + 1..];
  }

  lemma Mover(a: seq<Celda>, b: seq<Celda>, x: Celda, b2: seq<Celda>, m: multiset<Celda>)
    requires multiset(a) + multiset(b) == m
    requires multiset(b2) + multiset{x} == multiset(b)
    ensures multiset(a + [x]) + multiset(b2) == m
  {
    assert multiset(a + [x]) == multiset(a) + multiset{x};
  }

  /** What is picked and what is left together are the pool, reordered. */
  ghost predicate Permuta(pool: seq<Celda>, r: Seleccion) {
    multiset(r.elegidas) + multiset(r.resto) == multiset(pool)
  }

  lemma PermutaPaso(pool: seq<Celda>, k: nat, fuente: Fuente, u: nat)
    requires 0 < k <= |pool|
    requires Permuta(pool, Muestra(pool, k - 1, fuente, u))
    ensures Permuta(pool, Muestra(pool, k, fuente, u))
  {
    MuestraSiguiente(pool, k, fuente, u);
    var s := Muestra(pool, k - 1, fuente, u);
    var i := fuente(u + k - 1, |s.resto|);
    assert Muestra(pool, k, fuente, u) == Extraer(s, i);
    QuitarUno(s.resto, i);
    Mover(s.elegidas, s.resto, s.resto[i], s.resto[..i] + s.resto[i + 1..], multiset(pool));
  }

  /** A draw without replacement only moves cells from what is left to what is picked. */
  lemma {:induction false} MuestraPermuta(pool: seq<Celda>, k: nat, fuente: Fuente, u: nat)
    requires k <= |pool|
    ensures Permuta(pool, Muestra(pool, k, fuente, u))
  {
    if k > 0 {
      MuestraPermuta(pool, k - 1, fuente, u);
      PermutaPaso(pool, k, fuente, u);
    }
  }

  /** A sequence has no repetitions exactly when every value occurs at most once in its multiset. */
  lemma {:induction false} SinRepetidosMultiset<T>(s: seq<T>)
    ensures SinRepetidos(s) <==> forall v :: multiset(s)[v] <= 1
  {
    if s != [] {
      var t, u := s[..|s| - 1], s[|s| - 1];
      assert s == t + [u];
      SinRepetidosMultiset(t);
      if SinRepetidos(s) {
        assert SinRepetidos(t);
        assert u !in t;
        forall v ensures multiset(s)[v] <= 1 {
          assert multiset(s)[v] == multiset(t)[v] + multiset([u])[v];
        }
      } else {
        var i, j :| 0 <= i < j < |s| && s[i] == s[j];
        if j < |s| - 1 {
          assert t[i] == t[j];
          assert !SinRepetidos(t);
          var v :| multiset(t)[v] > 1;
          assert multiset(s)[v] == multiset(t)[v] + multiset([u])[v];
        } else {
          assert t[i] == u;
          assert multiset(t)[u] >= 1;
          assert multiset(s)[u] == multiset(t)[u] + 1;
        }
      }
    }
  }

  /** A sample of a pool without repetitions picks cells of the pool, none twice. */
  lemma MuestraSinRepetidos(pool: seq<Celda>, k: nat, fuente: Fuente, u: nat)
    requires k <= |pool| && SinRepetidos(pool)
    ensures SinRepetidos(Muestra(pool, k, fuente, u).elegidas)
    ensures forall c :: c in Muestra(pool, k, fuente, u).elegidas ==> c in pool
  {
    var r := Muestra(pool, k, fuente, u);
    var todo := r.elegidas + r.resto;
    MuestraPermuta(pool, k, fuente, u);
    assert multiset(todo) == multiset(pool);
    SinRepetidosMultiset(pool);
    SinRepetidosMultiset(todo);
    assert SinRepetidos(r.elegidas) by {
      forall i, j | 0 <= i < j < |r.elegidas| ensures r.elegidas[i] != r.elegidas[j] {
        assert todo[i] == r.elegidas[i] && todo[j] == r.elegidas[j];
      }
    }
    forall c | c in r.elegidas ensures c in pool {
      assert c in multiset(r.elegidas);
      assert c in multiset(pool);
    }
  }

  /** The cell on side `borde` at offset `k` along it. */
  function PosicionEnBorde(ancho: int, alto: int, borde: Borde, k: int): (c: Celda)
    requires ancho >= 1 && alto >= 1
    requires (borde == Arriba || borde == Abajo) ==> 0 <= k < ancho
    requires (borde == Izquierda || borde == Derecha) ==> 0 <= k < alto
    ensures DentroDe(ancho, alto, c) && EnBorde(ancho, alto, c)
  {
    match borde
    case Arriba => (k, 0)
    case Abajo => (k, alto - 1)
    case Izquierda => (0, k)
    case Derecha => (ancho - 1, k)
  }

  /** The food cells seeded from the draws starting at `u`. */
  function ComidaSembrada(ancho: int, alto: int, p: Porcentaje, fuente: Fuente, u: nat): set<Celda>
    requires p.den > 0
  {
    Elementos(Muestra(Interiores(ancho, alto), CantidadComida(NumInteriores(ancho, alto), p), fuente, u).elegidas)
  }

  /**
   * Seeding puts food on exactly `CantidadComida` distinct interior cells, so
   * it is never on a home cell.
   */
  lemma SembradaInterior(ancho: int, alto: int, p: Porcentaje, fuente: Fuente, u: nat)
    requires p.den > 0
    ensures |ComidaSembrada(ancho, alto, p, fuente, u)| == CantidadComida(NumInteriores(ancho, alto), p)
    ensures forall c :: c in ComidaSembrada(ancho, alto, p, fuente, u) ==> EsInterior(ancho, alto, c)
  {
    var pool := Interiores(ancho, alto);
    var k := CantidadComida(NumInteriores(ancho, alto), p);
    MuestraSinRepetidos(pool, k, fuente, u);
    CardinalSinRepetidos(Muestra(pool, k, fuente, u).elegidas);
  }

  /** Whether a particle with priority is registered at cell `c`. */
  predicate HayPrioridad(registro: map<Celda, seq<Ocupante>>, c: Celda) {
    c in registro && exists i :: 0 <= i < |registro[c]| && registro[c][i].mutacion == Prioridad
  }

  /**
   * Contested consumption at `c` by `o`: it succeeds when there is food and `o`
   * has priority or no priority particle is registered there; a success removes
   * the food cell, lowers the count and drops the cell's registry entry.
   */
  function Consumir(d: Despensa, c: Celda, o: Ocupante): (r: (bool, Despensa))
  {
    if c in d.posiciones && (o.mutacion == Prioridad || !HayPrioridad(d.registro, c))
    then (true, Despensa(d.posiciones - {c}, d.actual - 1, d.registro - {c}))
    else (false, d)
  }

  /** The food bookkeeping the grid keeps: the count matches the cells, all interior, registry lists without repeats. */
  ghost predicate Coherente(ancho: int, alto: int, total: int, d: Despensa) {
    d.actual == |d.posiciones| <= total
    && (forall c :: c in d.posiciones ==> EsInterior(ancho, alto, c))
    && (forall c :: c in d.registro ==> SinRepetidos(d.registro[c]))
  }

  /**
   * Consumption keeps the bookkeeping coherent and touches at most the one
   * cell: no other food cell or registry entry changes.
   */
  lemma ConsumirConserva(ancho: int, alto: int, total: int, d: Despensa, c: Celda, o: Ocupante)
    requires Coherente(ancho, alto, total, d)
    ensures Coherente(ancho, alto, total, Consumir(d, c, o).1)
    ensures c !in d.posiciones ==> Consumir(d, c, o) == (false, d)
    ensures Consumir(d, c, o).0 ==> Consumir(d, c, o).1.actual == d.actual - 1 && c !in Consumir(d, c, o).1.posiciones
    ensures Consumir(d, c, o).0 ==> c !in Consumir(d, c, o).1.registro
    ensures !Consumir(d, c, o).0 ==> Consumir(d, c, o).1 == d
    ensures forall c' :: c' != c ==> (c' in Consumir(d, c, o).1.posiciones <==> c' in d.posiciones)
    ensures forall c' :: c' != c && c' in d.registro ==> c' in Consumir(d, c, o).1.registro && Consumir(d, c, o).1.registro[c'] == d.registro[c']
  {
  }

  /** A priority particle on a food cell always eats; one without priority eats exactly when no priority particle is registered there. */
  lemma PrioridadGana(d: Despensa, c: Celda, o: Ocupante)
    requires c in d.posiciones
    ensures o.mutacion == Prioridad ==> Consumir(d, c, o).0
    ensures o.mutacion != Prioridad ==> (Consumir(d, c, o).0 <==> !HayPrioridad(d.registro, c))
  {
  }

  /** The registry after `o` is recorded at `c`: appended to the cell's list unless already on it. */
  function Registrar(registro: map<Celda, seq<Ocupante>>, c: Celda, o: Ocupante): (r: map<Celda, seq<Ocupante>>)
    ensures c in r && o in r[c]
    ensures r.Keys == registro.Keys + {c}
    ensures forall c' :: c' in registro && c' != c ==> r[c'] == registro[c']
    ensures c in registro ==> forall p :: p in registro[c] ==> p in r[c]
    ensures Elementos(r[c]) == (if c in registro then Elementos(registro[c]) else {}) + {o}
  {
    var antes := if c in registro then registro[c] else [];
    registro[c := if o in antes then antes else antes + [o]]
  }

  /** Recording the same particle twice at the same cell is the same as recording it once. */
  lemma RegistrarIdempotente(registro: map<Celda, seq<Ocupante>>, c: Celda, o: Ocupante)
    ensures Registrar(Registrar(registro, c, o), c, o) == Registrar(registro, c, o)
  {
  }

  /** Registration never lists a particle twice at one cell. */
  lemma RegistrarSinRepetidos(registro: map<Celda, seq<Ocupante>>, c: Celda, o: Ocupante)
    requires forall c' :: c' in registro ==> SinRepetidos(registro[c'])
    ensures forall c' :: c' in Registrar(registro, c, o) ==> SinRepetidos(Registrar(registro, c, o)[c'])
  {
    var r := Registrar(registro, c, o);
    var antes := if c in registro then registro[c] else [];
    assert SinRepetidos(antes);
    if o !in antes {
      assert r[c] == antes + [o];
    }
  }

  class Entorno {
    const ancho: int
    const alto: int
    const porcentajeComida: Porcentaje
    var posicionesComida: set<Celda>
    var comidaTotal: int
    var comidaActual: int
    var particulasEnPosicion: map<Celda, seq<Ocupante>>

    ghost predicate Valid()
      reads this
    {
      porcentajeComida.den > 0 && Coherente(ancho, alto, comidaTotal, Estado())
    }

    /** The food cells, remaining count and registry as one value. */
    function Estado(): Despensa
      reads this
    {
      Despensa(posicionesComida, comidaActual, particulasEnPosicion)
    }

    constructor (ancho: int, alto: int, porcentajeComida: Porcentaje, azar: Azar)
      requires porcentajeComida.den > 0
      modifies azar`usados
      ensures Valid()
      ensures this.ancho == ancho && this.alto == alto && this.porcentajeComida == porcentajeComida
      ensures posicionesComida == ComidaSembrada(ancho, alto, porcentajeComida, azar.fuente, old(azar.usados))
      ensures azar.usados == old(azar.usados) + CantidadComida(NumInteriores(ancho, alto), porcentajeComida)
      ensures comidaTotal == comidaActual == |posicionesComida|
      ensures particulasEnPosicion == map[]
    {
      this.ancho := ancho;
      this.alto := alto;
      this.porcentajeComida := porcentajeComida;
      posicionesComida := {};
      comidaTotal := 0;
      comidaActual := 0;
      particulasEnPosicion := map[];
      new;
      GenerarComida(azar);
    }

    /**
     * Place food on freshly drawn interior cells, replacing any food left over;
     * the registry is not touched.
     */
    method GenerarComida(azar: Azar)
      requires porcentajeComida.den > 0
      requires forall c :: c in particulasEnPosicion ==> SinRepetidos(particulasEnPosicion[c])
      modifies this`posicionesComida, this`comidaTotal, this`comidaActual, azar`usados
      ensures Valid()
      ensures posicionesComida == ComidaSembrada(ancho, alto, porcentajeComida, azar.fuente, old(azar.usados))
      ensures azar.usados == old(azar.usados) + CantidadComida(NumInteriores(ancho, alto), porcentajeComida)
      ensures comidaTotal == comidaActual == |posicionesComida|
      ensures forall c :: c in posicionesComida ==> EsInterior(ancho, alto, c)
    {
      var internas := Interiores(ancho, alto);
      var total := |internas|;
      var cantidad := Truncar(total * porcentajeComida.num, porcentajeComida.den);
      if cantidad == 0 && total > 0 {
        cantidad := 1;
      }
      ghost var k := CantidadComida(NumInteriores(ancho, alto), porcentajeComida);
      ghost var u0 := azar.usados;
      if cantidad > 0 && |internas| > 0 {
        assert Min(cantidad, |internas|) == k;
        var seleccion := Muestra(internas, Min(cantidad, |internas|), azar.fuente, azar.usados).elegidas;
        azar.Avanzar(Min(cantidad, |internas|));
        posicionesComida := Elementos(seleccion);
      } else {
        assert k == 0;
        posicionesComida := {};
        assert Muestra(internas, 0, azar.fuente, u0).elegidas == [];
      }
      SembradaInterior(ancho, alto, porcentajeComida, azar.fuente, u0);
      comidaTotal := |posicionesComida|;
      comidaActual := comidaTotal;
    }

    /** `reestablecer_comida`: the day's food is drawn again from scratch. */
    method ReestablecerComida(azar: Azar)
      requires Valid()
      modifies this`posicionesComida, this`comidaTotal, this`comidaActual, azar`usados
      ensures Valid()
      ensures posicionesComida == ComidaSembrada(ancho, alto, porcentajeComida, azar.fuente, old(azar.usados))
      ensures azar.usados == old(azar.usados) + CantidadComida(NumInteriores(ancho, alto), porcentajeComida)
      ensures comidaTotal == comidaActual == |posicionesComida|
    {
      GenerarComida(azar);
    }

    /** `es_posicion_valida`: a cell on the grid is a home cell or an interior one. */
    predicate EsPosicionValida(x: int, y: int): (r: bool)
      ensures r ==> EsCasa(x, y) || EsInterior(ancho, alto, (x, y))
    {
      DentroDe(ancho, alto, (x, y))
    }

    /** `es_casa`: a home cell is never an interior cell. */
    predicate EsCasa(x: int, y: int): (r: bool)
      ensures r ==> !EsInterior(ancho, alto, (x, y))
    {
      EnBorde(ancho, alto, (x, y))
    }

    /** `hay_comida`: on a coherent grid, food lies only on interior cells, never on a home cell. */
    predicate HayComida(x: int, y: int): (r: bool)
      reads this
      ensures r && Valid() ==> EsInterior(ancho, alto, (x, y)) && !EsCasa(x, y)
    {
      (x, y) in posicionesComida
    }

    function ObtenerDimensiones(): (r: (int, int))
      ensures forall x, y :: EsPosicionValida(x, y) <==> 0 <= x < r.0 && 0 <= y < r.1
      ensures forall x, y :: EsCasa(x, y) <==> x == 0 || x == r.0 - 1 || y == 0 || y == r.1 - 1
    {
      (ancho, alto)
    }

    /**
     * `consumir_comida`: contested consumption of the food at `(x, y)` by
     * `particula`, scanning the cell's registry for a priority particle.
     */
    method ConsumirComida(x: int, y: int, particula: Ocupante) returns (exito: bool)
      requires Valid()
      modifies this`posicionesComida, this`comidaActual, this`particulasEnPosicion
      ensures Valid()
      ensures (exito, Estado()) == Consumir(old(Estado()), (x, y), particula)
    {
      if (x, y) !in posicionesComida {
        return false;
      }
      var posKey := (x, y);
      ghost var registroViejo := particulasEnPosicion;
      if posKey !in particulasEnPosicion {
        particulasEnPosicion := particulasEnPosicion[posKey := []];
      }
      assert particulasEnPosicion - {posKey} == registroViejo - {posKey};
      var particulasAqui := particulasEnPosicion[posKey];
      if particula.mutacion == Prioridad {
        posicionesComida := posicionesComida - {(x, y)};
        comidaActual := comidaActual - 1;
        if posKey in particulasEnPosicion {
          particulasEnPosicion := particulasEnPosicion - {posKey};
        }
        return true;
      } else {
        var i := 0;
        while i < |particulasAqui|
          invariant 0 <= i <= |particulasAqui|
          invariant forall j :: 0 <= j < i ==> particulasAqui[j].mutacion != Prioridad
        {
          if particulasAqui[i].mutacion == Prioridad {
            return false;
          }
          i := i + 1;
        }
        assert !HayPrioridad(registroViejo, posKey);
        posicionesComida := posicionesComida - {(x, y)};
        comidaActual := comidaActual - 1;
        if posKey in particulasEnPosicion {
          particulasEnPosicion := particulasEnPosicion - {posKey};
        }
        return true;
      }
    }

    /** `registrar_particula_en_posicion`: add the particle to the cell's list unless already there. */
    method RegistrarParticulaEnPosicion(x: int, y: int, particula: Ocupante)
      requires Valid()
      modifies this`particulasEnPosicion
      ensures Valid()
      ensures particulasEnPosicion == Registrar(old(particulasEnPosicion), (x, y), particula)
    {
      var posKey := (x, y);
      ghost var registroViejo := particulasEnPosicion;
      if posKey !in particulasEnPosicion {
        particulasEnPosicion := particulasEnPosicion[posKey := []];
      }
      if particula !in particulasEnPosicion[posKey] {
        particulasEnPosicion := particulasEnPosicion[posKey := particulasEnPosicion[posKey] + [particula]];
      }
      RegistrarSinRepetidos(registroViejo, posKey, particula);
    }

    /** `limpiar_registro_posiciones`: forget every registration. */
    method LimpiarRegistroPosiciones()
      requires Valid()
      modifies this`particulasEnPosicion
      ensures Valid()
      ensures particulasEnPosicion == map[]
    {
      particulasEnPosicion := map[];
    }

    /** `obtener_posicion_inicial_aleatoria`: a random side, then a random offset along it. */
    method ObtenerPosicionInicialAleatoria(azar: Azar) returns (c: Celda)
      requires ancho >= 1 && alto >= 1
      modifies azar`usados
      ensures var borde := BORDES[azar.fuente(old(azar.usados), 4)];
              var largo := if borde == Arriba || borde == Abajo then ancho else alto;
              c == PosicionEnBorde(ancho, alto, borde, azar.fuente(old(azar.usados) + 1, largo))
      ensures azar.usados == old(azar.usados) + 2
      ensures EsPosicionValida(c.0, c.1) && EsCasa(c.0, c.1)
    {
      var i := azar.Elegir(4);
      var borde := BORDES[i];
      if borde == Arriba {
        var k := azar.Elegir(ancho);
        return (k, 0);
      } else if borde == Abajo {
        var k := azar.Elegir(ancho);
        return (k, alto - 1);
      } else if borde == Izquierda {
        var k := azar.Elegir(alto);
        return (0, k);
      } else {
        var k := azar.Elegir(alto);
        return (ancho - 1, k);
      }
    }
  }
}
