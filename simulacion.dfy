/**
 * The population controller (`Simulacion`): id allocation, predator
 * spawning, predator attacks, the end-of-day roster rebuild, day bookkeeping
 * and the run loop.
 */
module Simulaciones {
  import opened Tipos
  import opened Aleatorio
  import opened Entornos
  import opened Particulas
  import opened Marchas

  /** Predators appear on the days whose number the (positive) frequency divides. */
  predicate Aparecen(frecuencia: int, dia: int) {
    frecuencia > 0 && dia % frecuencia == 0
  }

  // ---------------------------------------------------------------------------
  // Predator attacks
  // ---------------------------------------------------------------------------

  /** The liveness flags of the particles, the fatal bites counted and the bites drawn so far. */
  datatype Ronda = Ronda(vivas: seq<bool>, muertes: nat, mordidas: nat)

  /** How many flags are set. */
  function Vivos(v: seq<bool>): nat {
    if v == [] then 0 else Vivos(v[..|v| - 1]) + (if v[|v| - 1] then 1 else 0)
  }

  /** Clearing a set flag lowers the count by one. */
  lemma {:induction false} VivosQuitar(v: seq<bool>, i: nat)
    requires i < |v| && v[i]
    ensures Vivos(v[i := false]) + 1 == Vivos(v)
  {
    var w := v[i := false];
    if i < |v| - 1 {
      assert w[..|w| - 1] == v[..|v| - 1][i := false];
      VivosQuitar(v[..|v| - 1], i);
    } else {
      assert w[..|w| - 1] == v[..|v| - 1];
    }
  }

  /**
   * The bites of one predator at cell `c` on the first `k` particles, in
   * roster order: a live particle on the same cell, off the border, is bitten,
   * and a fatal bite kills it.
   */
  function Morder(ancho: int, alto: int, c: Celda, pos: seq<Celda>, r: Ronda, fatal: nat -> bool, k: nat): (s: Ronda)
    requires k <= |pos| == |r.vivas|
    ensures |s.vivas| == |r.vivas|
    decreases k
  {
    if k == 0 then r
    else
      var s := Morder(ancho, alto, c, pos, r, fatal, k - 1);
      var i := k - 1;
      if s.vivas[i] && pos[i] == c && !EnBorde(ancho, alto, pos[i]) then
        var muere := fatal(s.mordidas);
        Ronda(if muere then s.vivas[i := false] else s.vivas, s.muertes + (if muere then 1 else 0), s.mordidas + 1)
      else s
  }

  /** The predator at `c` passes over particle `k`: it is dead, elsewhere or at home. */
  lemma MorderSalta(ancho: int, alto: int, c: Celda, pos: seq<Celda>, r: Ronda, fatal: nat -> bool, k: nat)
    requires k < |pos| == |r.vivas|
    requires var s := Morder(ancho, alto, c, pos, r, fatal, k); !(s.vivas[k] && pos[k] == c && !EnBorde(ancho, alto, pos[k]))
    ensures Morder(ancho, alto, c, pos, r, fatal, k + 1) == Morder(ancho, alto, c, pos, r, fatal, k)
  {
  }

  /** The predator at `c` bites particle `k`. */
  lemma MorderMuerde(ancho: int, alto: int, c: Celda, pos: seq<Celda>, r: Ronda, fatal: nat -> bool, k: nat)
    requires k < |pos| == |r.vivas|
    requires var s := Morder(ancho, alto, c, pos, r, fatal, k); s.vivas[k] && pos[k] == c && !EnBorde(ancho, alto, pos[k])
    ensures var s := Morder(ancho, alto, c, pos, r, fatal, k);
            var t := Morder(ancho, alto, c, pos, r, fatal, k + 1);
            t.mordidas == s.mordidas + 1
            && (fatal(s.mordidas) ==> t.vivas == s.vivas[k := false] && t.muertes == s.muertes + 1)
            && (!fatal(s.mordidas) ==> t.vivas == s.vivas && t.muertes == s.muertes)
  {
  }

  /** `_procesar_ataques_depredadores`: every predator in turn, skipping those on a home cell. */
  function Atacar(ancho: int, alto: int, dep: seq<Celda>, pos: seq<Celda>, r: Ronda, fatal: nat -> bool): (s: Ronda)
    requires |pos| == |r.vivas|
    ensures |s.vivas| == |r.vivas|
    decreases |dep|
  {
    if dep == [] then r
    else
      var s := Atacar(ancho, alto, dep[..|dep| - 1], pos, r, fatal);
      var c := dep[|dep| - 1];
      if EnBorde(ancho, alto, c) then s else Morder(ancho, alto, c, pos, s, fatal, |pos|)
  }

  /** What an attack round guarantees about one round of bites. */
  ghost predicate Mordidas(ancho: int, alto: int, celdas: seq<Celda>, pos: seq<Celda>, r: Ronda, s: Ronda)
    requires |pos| == |r.vivas| == |s.vivas|
  {
    r.muertes <= s.muertes && s.muertes - r.muertes <= s.mordidas - r.mordidas
    && Vivos(s.vivas) + (s.muertes - r.muertes) == Vivos(r.vivas)
    && (forall i :: 0 <= i < |r.vivas| && !r.vivas[i] ==> !s.vivas[i])
    && (forall i :: 0 <= i < |r.vivas| && r.vivas[i] && !s.vivas[i] ==>
          pos[i] in celdas && !EnBorde(ancho, alto, pos[i]))
  }

  /**
   * One predator kills no more than it bites, counts exactly the particles it
   * kills, revives no one and only kills off-border particles on its own cell.
   */
  lemma {:induction false} MorderCumple(ancho: int, alto: int, c: Celda, pos: seq<Celda>, r: Ronda, fatal: nat -> bool, k: nat)
    requires k <= |pos| == |r.vivas|
    ensures Mordidas(ancho, alto, [c], pos, r, Morder(ancho, alto, c, pos, r, fatal, k))
    decreases k
  {
    if k > 0 {
      MorderCumple(ancho, alto, c, pos, r, fatal, k - 1);
      var s := Morder(ancho, alto, c, pos, r, fatal, k - 1);
      var i := k - 1;
      if s.vivas[i] && pos[i] == c && !EnBorde(ancho, alto, pos[i]) && fatal(s.mordidas) {
        VivosQuitar(s.vivas, i);
      }
    }
  }

  /** Guarantees of consecutive rounds combine. */
  lemma MordidasEncadenadas(ancho: int, alto: int, a: seq<Celda>, b: seq<Celda>, pos: seq<Celda>, r: Ronda, s: Ronda, t: Ronda)
    requires |pos| == |r.vivas| == |s.vivas| == |t.vivas|
    requires Mordidas(ancho, alto, a, pos, r, s) && Mordidas(ancho, alto, b, pos, s, t)
    ensures Mordidas(ancho, alto, a + b, pos, r, t)
  {
    forall i | 0 <= i < |r.vivas| && r.vivas[i] && !t.vivas[i]
      ensures pos[i] in a + b && !EnBorde(ancho, alto, pos[i])
    {
      if s.vivas[i] {
        assert pos[i] in b;
      } else {
        assert pos[i] in a;
      }
    }
  }

  /**
   * All attacks together: the fatal bites counted are the particles that died,
   * no more than the bites drawn; no one is revived; every particle killed
   * stood off the border on a cell where some predator stood.
   */
  lemma {:induction false} AtacarCumple(ancho: int, alto: int, dep: seq<Celda>, pos: seq<Celda>, r: Ronda, fatal: nat -> bool)
    requires |pos| == |r.vivas|
    ensures Mordidas(ancho, alto, dep, pos, r, Atacar(ancho, alto, dep, pos, r, fatal))
    decreases |dep|
  {
    if dep == [] {
    } else {
      var previos := dep[..|dep| - 1];
      var c := dep[|dep| - 1];
      assert dep == previos + [c];
      AtacarCumple(ancho, alto, previos, pos, r, fatal);
      var s := Atacar(ancho, alto, previos, pos, r, fatal);
      if EnBorde(ancho, alto, c) {
        assert Mordidas(ancho, alto, previos, pos, r, s);
        forall i | 0 <= i < |r.vivas| && r.vivas[i] && !s.vivas[i] ensures pos[i] in dep {
          assert pos[i] in previos;
        }
      } else {
        MorderCumple(ancho, alto, c, pos, s, fatal, |pos|);
        MordidasEncadenadas(ancho, alto, previos, [c], pos, r, s, Morder(ancho, alto, c, pos, s, fatal, |pos|));
      }
    }
  }

  /** A predator on a home cell bites no one: adding it to the round changes nothing. */
  lemma AtacarEnCasa(ancho: int, alto: int, dep: seq<Celda>, c: Celda, pos: seq<Celda>, r: Ronda, fatal: nat -> bool)
    requires |pos| == |r.vivas| && EnBorde(ancho, alto, c)
    ensures Atacar(ancho, alto, dep + [c], pos, r, fatal) == Atacar(ancho, alto, dep, pos, r, fatal)
  {
    assert (dep + [c])[..|dep + [c]| - 1] == dep;
  }

  // ---------------------------------------------------------------------------
  // End of day
  // ---------------------------------------------------------------------------

  /** What the end-of-day fold reads of one particle. */
  datatype Ficha = Ficha(viva: bool, enCasa: bool, comida: nat)

  /** One entry of the next roster: particle `indice` of the old one kept, or a child of particle `padre`. */
  datatype Entrada = Queda(indice: nat) | Nace(padre: nat, id: nat, mutacion: Mutacion)

  /** The fold's accumulators: the next roster and the day's tallies. */
  datatype Balance = Balance(roster: seq<Entrada>, muertes: nat, reproducciones: nat, comida: nat,
                             velocidad: nat, prioridad: nat, siguienteId: nat, herencias: nat)

  /** The fold state before any particle is looked at. */
  function Inicio(id0: nat, h0: nat): Balance {
    Balance([], 0, 0, 0, 0, 0, id0, h0)
  }

  /**
   * The fold step for particle `i`: a dead particle is counted as a death; a
   * live one adds its meals; a non-survivor is a death; a survivor is kept and,
   * if it reproduces, immediately followed by a child with the next id and the
   * next inherited mutation.
   */
  function Evaluar(b: Balance, i: nat, f: Ficha, herencia: nat -> Mutacion): Balance {
    if !f.viva then b.(muertes := b.muertes + 1)
    else
      var v := Evaluacion(f.comida, f.enCasa);
      var comida := b.comida + f.comida;
      if !v.sobrevive then b.(muertes := b.muertes + 1, comida := comida)
      else if !v.reproduce then b.(roster := b.roster + [Queda(i)], comida := comida)
      else
        var m := herencia(b.herencias);
        Balance(b.roster + [Queda(i), Nace(i, b.siguienteId, m)], b.muertes, b.reproducciones + 1, comida,
                b.velocidad + (if m == Velocidad then 1 else 0), b.prioridad + (if m == Prioridad then 1 else 0),
                b.siguienteId + 1, b.herencias + 1)
  }

  /** `_evaluar_fin_dia` over the whole roster, children ids from `id0`, mutations from draw `h0` of `herencia`. */
  function Plan(fs: seq<Ficha>, id0: nat, herencia: nat -> Mutacion, h0: nat): Balance
    decreases |fs|
  {
    if fs == [] then Inicio(id0, h0)
    else Evaluar(Plan(fs[..|fs| - 1], id0, herencia, h0), |fs| - 1, fs[|fs| - 1], herencia)
  }

  /**
   * The tallies agree: the next roster has as many entries as the old one
   * minus the deaths plus the births; ids and mutation draws advance once per
   * birth; the new mutations are among the births.
   */
  lemma {:induction false} PlanCuentas(fs: seq<Ficha>, id0: nat, herencia: nat -> Mutacion, h0: nat)
    ensures var b := Plan(fs, id0, herencia, h0);
            |b.roster| + b.muertes == |fs| + b.reproducciones
            && b.siguienteId == id0 + b.reproducciones && b.herencias == h0 + b.reproducciones
            && b.velocidad + b.prioridad <= b.reproducciones && b.muertes <= |fs|
    decreases |fs|
  {
    if fs != [] {
      PlanCuentas(fs[..|fs| - 1], id0, herencia, h0);
    }
  }

  /** Every kept entry names a particle that was alive and at home. */
  ghost predicate QuedanVivas(fs: seq<Ficha>, b: Balance) {
    forall j :: 0 <= j < |b.roster| && b.roster[j].Queda? ==>
      b.roster[j].indice < |fs| && fs[b.roster[j].indice].viva && fs[b.roster[j].indice].enCasa
  }

  /** Every child comes right after its parent, which had eaten twice, and has an id handed out in this fold. */
  ghost predicate HijosTrasPadre(fs: seq<Ficha>, id0: nat, b: Balance) {
    forall j :: 0 <= j < |b.roster| && b.roster[j].Nace? ==>
      0 < j && b.roster[j - 1] == Queda(b.roster[j].padre)
      && b.roster[j].padre < |fs| && fs[b.roster[j].padre].comida >= 2
      && id0 <= b.roster[j].id < b.siguienteId
  }

  /** Children's ids increase along the roster. */
  ghost predicate IdsCrecientes(b: Balance) {
    forall j1, j2 :: 0 <= j1 < j2 < |b.roster| && b.roster[j1].Nace? && b.roster[j2].Nace? ==>
      b.roster[j1].id < b.roster[j2].id
  }

  /** Kept particles stay in their old order. */
  ghost predicate OrdenConservado(b: Balance) {
    forall j1, j2 :: 0 <= j1 < j2 < |b.roster| && b.roster[j1].Queda? && b.roster[j2].Queda? ==>
      b.roster[j1].indice < b.roster[j2].indice
  }

  /** What every entry of the next roster stands for. */
  ghost predicate EntradasBien(fs: seq<Ficha>, id0: nat, b: Balance) {
    QuedanVivas(fs, b) && HijosTrasPadre(fs, id0, b) && IdsCrecientes(b) && OrdenConservado(b)
  }

  /** Every entry names a particle already looked at. */
  ghost predicate Indices(n: nat, b: Balance) {
    (forall j :: 0 <= j < |b.roster| && b.roster[j].Queda? ==> b.roster[j].indice < n)
    && (forall j :: 0 <= j < |b.roster| && b.roster[j].Nace? ==> b.roster[j].padre < n && b.roster[j].id < b.siguienteId)
  }

  /** The entries the fold step for particle `i` appends. */
  lemma EvaluarAgrega(b: Balance, i: nat, f: Ficha, herencia: nat -> Mutacion)
    ensures var e := Evaluar(b, i, f, herencia);
            e.siguienteId >= b.siguienteId
            && (e.roster == b.roster
                || (e.roster == b.roster + [Queda(i)] && f.viva && f.enCasa)
                || (e.roster == b.roster + [Queda(i), Nace(i, b.siguienteId, herencia(b.herencias))]
                    && f.viva && f.enCasa && f.comida >= 2 && e.siguienteId == b.siguienteId + 1))
  {
  }

  /** The fold step keeps the entries inside the particles looked at. */
  lemma EvaluarIndices(fs: seq<Ficha>, herencia: nat -> Mutacion, b: Balance)
    requires fs != [] && Indices(|fs| - 1, b)
    ensures Indices(|fs|, Evaluar(b, |fs| - 1, fs[|fs| - 1], herencia))
  {
    EvaluarAgrega(b, |fs| - 1, fs[|fs| - 1], herencia);
  }

  lemma EvaluarQuedan(fs: seq<Ficha>, herencia: nat -> Mutacion, b: Balance)
    requires fs != [] && QuedanVivas(fs[..|fs| - 1], b) && Indices(|fs| - 1, b)
    ensures QuedanVivas(fs, Evaluar(b, |fs| - 1, fs[|fs| - 1], herencia))
  {
    var i := |fs| - 1;
    var e := Evaluar(b, i, fs[i], herencia);
    EvaluarAgrega(b, i, fs[i], herencia);
    forall j | 0 <= j < |e.roster| && e.roster[j].Queda?
      ensures e.roster[j].indice < |fs| && fs[e.roster[j].indice].viva && fs[e.roster[j].indice].enCasa
    {
      if j < |b.roster| {
        assert e.roster[j] == b.roster[j];
        assert fs[..i][b.roster[j].indice] == fs[b.roster[j].indice];
      }
    }
  }

  lemma EvaluarHijos(fs: seq<Ficha>, id0: nat, herencia: nat -> Mutacion, b: Balance)
    requires fs != [] && HijosTrasPadre(fs[..|fs| - 1], id0, b) && id0 <= b.siguienteId
    ensures HijosTrasPadre(fs, id0, Evaluar(b, |fs| - 1, fs[|fs| - 1], herencia))
  {
    var i := |fs| - 1;
    var e := Evaluar(b, i, fs[i], herencia);
    EvaluarAgrega(b, i, fs[i], herencia);
    forall j | 0 <= j < |e.roster| && e.roster[j].Nace?
      ensures 0 < j && e.roster[j - 1] == Queda(e.roster[j].padre)
              && e.roster[j].padre < |fs| && fs[e.roster[j].padre].comida >= 2
              && id0 <= e.roster[j].id < e.siguienteId
    {
      if j < |b.roster| {
        assert e.roster[j] == b.roster[j] && e.roster[j - 1] == b.roster[j - 1];
        assert fs[..i][b.roster[j].padre] == fs[b.roster[j].padre];
      }
    }
  }

  lemma EvaluarIds(fs: seq<Ficha>, herencia: nat -> Mutacion, b: Balance)
    requires fs != [] && IdsCrecientes(b) && Indices(|fs| - 1, b)
    ensures IdsCrecientes(Evaluar(b, |fs| - 1, fs[|fs| - 1], herencia))
  {
    var i := |fs| - 1;
    var e := Evaluar(b, i, fs[i], herencia);
    EvaluarAgrega(b, i, fs[i], herencia);
    forall j1, j2 | 0 <= j1 < j2 < |e.roster| && e.roster[j1].Nace? && e.roster[j2].Nace?
      ensures e.roster[j1].id < e.roster[j2].id
    {
      if j2 < |b.roster| {
        assert e.roster[j1] == b.roster[j1] && e.roster[j2] == b.roster[j2];
      } else {
        assert e.roster[j1] == b.roster[j1];
      }
    }
  }

  lemma EvaluarOrden(fs: seq<Ficha>, herencia: nat -> Mutacion, b: Balance)
    requires fs != [] && OrdenConservado(b) && Indices(|fs| - 1, b)
    ensures OrdenConservado(Evaluar(b, |fs| - 1, fs[|fs| - 1], herencia))
  {
    var i := |fs| - 1;
    var e := Evaluar(b, i, fs[i], herencia);
    EvaluarAgrega(b, i, fs[i], herencia);
    forall j1, j2 | 0 <= j1 < j2 < |e.roster| && e.roster[j1].Queda? && e.roster[j2].Queda?
      ensures e.roster[j1].indice < e.roster[j2].indice
    {
      if j2 < |b.roster| {
        assert e.roster[j1] == b.roster[j1] && e.roster[j2] == b.roster[j2];
      } else {
        assert e.roster[j1] == b.roster[j1];
      }
    }
  }

  /**
   * In the next roster every survivor is kept in order, each child comes right
   * after its parent, and children's ids increase from `id0`.
   */
  lemma {:induction false} PlanEntradas(fs: seq<Ficha>, id0: nat, herencia: nat -> Mutacion, h0: nat)
    ensures EntradasBien(fs, id0, Plan(fs, id0, herencia, h0))
    ensures Indices(|fs|, Plan(fs, id0, herencia, h0))
    decreases |fs|
  {
    if fs != [] {
      var previos := fs[..|fs| - 1];
      var b := Plan(previos, id0, herencia, h0);
      PlanEntradas(previos, id0, herencia, h0);
      PlanCuentas(previos, id0, herencia, h0);
      EvaluarIndices(fs, herencia, b);
      EvaluarQuedan(fs, herencia, b);
      EvaluarHijos(fs, id0, herencia, b);
      EvaluarIds(fs, herencia, b);
      EvaluarOrden(fs, herencia, b);
    }
  }

  /** A particle kept in the next roster is exactly one that was alive and at home. */
  lemma {:induction false} PlanSobrevive(fs: seq<Ficha>, id0: nat, herencia: nat -> Mutacion, h0: nat, i: nat)
    requires i < |fs|
    ensures Queda(i) in Plan(fs, id0, herencia, h0).roster <==> fs[i].viva && fs[i].enCasa
    decreases |fs|
  {
    var b := Plan(fs, id0, herencia, h0);
    PlanEntradas(fs, id0, herencia, h0);
    if Queda(i) in b.roster {
      var j :| 0 <= j < |b.roster| && b.roster[j] == Queda(i);
      assert QuedanVivas(fs, b);
    }
    if fs[i].viva && fs[i].enCasa {
      var previos := fs[..|fs| - 1];
      var a := Plan(previos, id0, herencia, h0);
      EvaluarAgrega(a, |fs| - 1, fs[|fs| - 1], herencia);
      if i < |fs| - 1 {
        assert previos[i] == fs[i];
        PlanSobrevive(previos, id0, herencia, h0, i);
        assert b.roster[..|a.roster|] == a.roster;
      }
    }
  }

  /** The id an entry of the next roster carries, given the ids of the old roster. */
  function IdDe(ids: seq<int>, e: Entrada): int {
    match e
    case Queda(i) => if i < |ids| then ids[i] else -1
    case Nace(_, id, _) => id
  }

  /** The ids of the next roster. */
  function IdsRoster(ids: seq<int>, roster: seq<Entrada>): seq<int> {
    seq(|roster|, j requires 0 <= j < |roster| => IdDe(ids, roster[j]))
  }

  /** Ids handed out by the counter: non-negative, below it, and no two alike. */
  ghost predicate IdsValidos(ids: seq<int>, tope: int) {
    SinRepetidos(ids) && forall i :: 0 <= i < |ids| ==> 0 <= ids[i] < tope
  }

  /**
   * Ids stay unique across the end of the day: the survivors keep theirs and
   * every child gets a new one from the counter.
   */
  lemma PlanIds(ids: seq<int>, fs: seq<Ficha>, id0: nat, herencia: nat -> Mutacion, h0: nat)
    requires |ids| == |fs| && IdsValidos(ids, id0)
    ensures var b := Plan(fs, id0, herencia, h0); IdsValidos(IdsRoster(ids, b.roster), b.siguienteId)
  {
    var b := Plan(fs, id0, herencia, h0);
    var r := IdsRoster(ids, b.roster);
    PlanEntradas(fs, id0, herencia, h0);
    PlanCuentas(fs, id0, herencia, h0);
    assert EntradasBien(fs, id0, b);
    forall j | 0 <= j < |r| ensures 0 <= r[j] < b.siguienteId {
      if b.roster[j].Queda? {
        assert b.roster[j].indice < |ids|;
      }
    }
    forall j1, j2 | 0 <= j1 < j2 < |r| ensures r[j1] != r[j2] {
      var e1, e2 := b.roster[j1], b.roster[j2];
      if e1.Queda? && e2.Queda? {
        assert e1.indice < e2.indice;
      } else if e1.Queda? {
        assert r[j1] < id0 <= r[j2];
      } else if e2.Queda? {
        assert r[j2] < id0 <= r[j1];
      }
    }
  }

  /** How many of the tags are `m`. */
  function Contar(ms: seq<Mutacion>, m: Mutacion): nat {
    if ms == [] then 0 else Contar(ms[..|ms| - 1], m) + (if ms[|ms| - 1] == m then 1 else 0)
  }

  /** The three per-mutation counts of a day's statistics add up to the roster size. */
  lemma {:induction false} ContarTotal(ms: seq<Mutacion>)
    ensures Contar(ms, Ninguna) + Contar(ms, Velocidad) + Contar(ms, Prioridad) == |ms|
  {
    if ms != [] {
      ContarTotal(ms[..|ms| - 1]);
    }
  }

  /** `particulas_iniciales` as written: the size of the next roster plus the deaths. */
  function InicialesEscritas(fs: seq<Ficha>, id0: nat, herencia: nat -> Mutacion, h0: nat): nat {
    var b := Plan(fs, id0, herencia, h0);
    |b.roster| + b.muertes
  }

  /** As written, the count includes the children born that day. */
  lemma InicialesEscritasCuentanHijos(fs: seq<Ficha>, id0: nat, herencia: nat -> Mutacion, h0: nat)
    ensures InicialesEscritas(fs, id0, herencia, h0) == |fs| + Plan(fs, id0, herencia, h0).reproducciones
  {
    PlanCuentas(fs, id0, herencia, h0);
  }

  /** One particle that ate twice and came home: one particle started the day, two are reported. */
  lemma InicialesEscritasEjemplo(herencia: nat -> Mutacion)
    ensures InicialesEscritas([Ficha(true, true, 2)], 0, herencia, 0) == 2
  {
    var fs := [Ficha(true, true, 2)];
    assert fs[..0] == [];
  }

  /** The particles that started the day: the old roster. */
  function Iniciales(fs: seq<Ficha>): nat {
    |fs|
  }

  /** Corrected: the day starts with the survivors plus the deaths, minus the children born. */
  lemma InicialesCuadran(fs: seq<Ficha>, id0: nat, herencia: nat -> Mutacion, h0: nat)
    ensures var b := Plan(fs, id0, herencia, h0);
            Iniciales(fs) + b.reproducciones == |b.roster| + b.muertes
  {
    PlanCuentas(fs, id0, herencia, h0);
  }

  // ---------------------------------------------------------------------------
  // The controller
  // ---------------------------------------------------------------------------

  /** One day's statistics, as `_evaluar_fin_dia` records them. */
  datatype Estadisticas = Estadisticas(
    dia: int, particulasIniciales: nat, particulasFinales: nat, muertes: nat, reproducciones: nat,
    comidaConsumida: nat, comidaRestante: int, comidaInicial: int,
    normales: nat, velocidad: nat, prioridad: nat,
    nuevasMutacionesVelocidad: nat, nuevasMutacionesPrioridad: nat,
    depredadoresAparecidos: int, muertesPorDepredador: int)

  /** The five running counters of `_evaluar_fin_dia`. */
  datatype Cuentas = Cuentas(muertes: nat, reproducciones: nat, comida: nat, velocidad: nat, prioridad: nat)

  /** The counters agree with the fold's tallies. */
  predicate Cuadra(c: Cuentas, b: Balance) {
    c == Cuentas(b.muertes, b.reproducciones, b.comida, b.velocidad, b.prioridad)
  }

  function Ids(ps: seq<Particula>): seq<int> {
    seq(|ps|, i requires 0 <= i < |ps| => ps[i].id)
  }

  function Mutaciones(ps: seq<Particula>): seq<Mutacion> {
    seq(|ps|, i requires 0 <= i < |ps| => ps[i].mutacion)
  }

  function Vivas(ps: seq<Particula>): seq<bool>
    reads ps
  {
    seq(|ps|, i requires 0 <= i < |ps| reads ps => ps[i].viva)
  }

  lemma VivasPresentes(ps: seq<Particula>, ms: seq<Marchante>)
    requires Presentes(ps, ms)
    ensures Vivas(ps) == Vidas(ms)
  {
  }

  function Posiciones(ps: seq<Particula>): seq<Celda>
    reads ps
  {
    seq(|ps|, i requires 0 <= i < |ps| reads ps => ps[i].posicionActual)
  }

  function Fichas(ps: seq<Particula>): seq<Ficha>
    reads ps
  {
    seq(|ps|, i requires 0 <= i < |ps| reads ps => Ficha(ps[i].viva, ps[i].enCasa, ps[i].comidaConsumida))
  }

  /** The agents of `ps` from index `n0` on are new ones with consecutive ids from `id0`. */
  ghost predicate Recientes(ps: seq<Particula>, n0: nat, id0: int, depredador: bool)
    reads ps
  {
    n0 <= |ps| && forall i :: n0 <= i < |ps| ==> Recien(ps[i], id0 + (i - n0), depredador)
  }

  lemma RecientesAgregar(ps: seq<Particula>, n0: nat, id0: int, depredador: bool, p: Particula)
    requires Recientes(ps, n0, id0, depredador) && Recien(p, id0 + (|ps| - n0), depredador)
    ensures Recientes(ps + [p], n0, id0, depredador)
  {
    forall i | n0 <= i < |ps| + 1 ensures Recien((ps + [p])[i], id0 + (i - n0), depredador) {
      if i < |ps| {
        assert (ps + [p])[i] == ps[i];
      }
    }
  }

  /** A newly created agent: alive, at its home on the border, with the given id. */
  ghost predicate Recien(p: Particula, id: int, depredador: bool)
    reads p
  {
    p.id == id && p.generacion == 0 && p.mutacion == Ninguna && p.esDepredador == depredador && p.viva
    && p.Hoy() == Amanecer(p.posInicial)
    && DentroDe(p.entorno.ancho, p.entorno.alto, p.posInicial) && EnBorde(p.entorno.ancho, p.entorno.alto, p.posInicial)
  }

  /** Agent `p` stands for entry `e` of the next roster built from `viejos`. */
  ghost predicate Corresponde(p: Particula, e: Entrada, viejos: seq<Particula>, entorno: Entorno)
    reads p`posicionActual, p`comidaConsumida, p`camino, p`pasosRealizados, p`enCasa
  {
    match e
    case Queda(i) => i < |viejos| && p == viejos[i]
    case Nace(padre, id, m) =>
      padre < |viejos| && Integrante(p, entorno, false) && p.Hoy() == Amanecer(p.posInicial)
      && p.id == id && p.mutacion == m
      && p.posInicial == viejos[padre].posInicial && p.generacion == viejos[padre].generacion + 1
  }

  ghost predicate Encaja(ps: seq<Particula>, roster: seq<Entrada>, viejos: seq<Particula>, entorno: Entorno)
    reads ps`posicionActual, ps`comidaConsumida, ps`camino, ps`pasosRealizados, ps`enCasa
  {
    |ps| == |roster| && forall j :: 0 <= j < |ps| ==> Corresponde(ps[j], roster[j], viejos, entorno)
  }

  lemma EncajaConcat(ps: seq<Particula>, roster: seq<Entrada>, qs: seq<Particula>, mas: seq<Entrada>,
                     viejos: seq<Particula>, entorno: Entorno)
    requires Encaja(ps, roster, viejos, entorno) && Encaja(qs, mas, viejos, entorno)
    ensures Encaja(ps + qs, roster + mas, viejos, entorno)
  {
    forall j | 0 <= j < |ps| + |qs|
      ensures Corresponde((ps + qs)[j], (roster + mas)[j], viejos, entorno)
    {
      if j < |ps| {
        assert (ps + qs)[j] == ps[j] && (roster + mas)[j] == roster[j];
      } else {
        assert (ps + qs)[j] == qs[j - |ps|] && (roster + mas)[j] == mas[j - |ps|];
      }
    }
  }

  /** The agents' alive flags are `vs`. */
  ghost predicate Banderas(ps: seq<Particula>, vs: seq<bool>)
    reads ps`viva
  {
    |ps| == |vs| && forall k :: 0 <= k < |ps| ==> ps[k].viva == vs[k]
  }

  /** The alive flags once the first `i` of the agents `fs` have been judged: those away from home die. */
  function Marcas(fs: seq<Ficha>, i: nat): seq<bool> {
    seq(|fs|, k requires 0 <= k < |fs| => fs[k].viva && (k < i ==> fs[k].enCasa))
  }

  /** The agents stand at `pos` with liveness flags `vivas`. */
  ghost predicate Refleja(ps: seq<Particula>, pos: seq<Celda>, vivas: seq<bool>)
    reads ps`viva, ps`posicionActual
  {
    |ps| == |pos| == |vivas| && forall j :: 0 <= j < |ps| ==> ps[j].posicionActual == pos[j] && ps[j].viva == vivas[j]
  }

  /** The next roster inherits the agents' standing from the old one. */
  lemma EncajaPoblacion(ps: seq<Particula>, roster: seq<Entrada>, viejos: seq<Particula>, e: Entorno)
    requires Encaja(ps, roster, viejos, e) && Poblacion(viejos, e, false)
    ensures Poblacion(ps, e, false)
  {
    forall p | p in ps ensures Integrante(p, e, false) {
      var j :| 0 <= j < |ps| && ps[j] == p;
      assert Corresponde(ps[j], roster[j], viejos, e);
      if roster[j].Queda? {
        assert viejos[roster[j].indice] in viejos;
      }
    }
  }

  /** The ids of the next roster are those the entries name. */
  lemma EncajaIds(ps: seq<Particula>, roster: seq<Entrada>, viejos: seq<Particula>, e: Entorno)
    requires Encaja(ps, roster, viejos, e)
    ensures Ids(ps) == IdsRoster(Ids(viejos), roster)
  {
    forall j | 0 <= j < |ps| ensures Ids(ps)[j] == IdsRoster(Ids(viejos), roster)[j] {
      assert Corresponde(ps[j], roster[j], viejos, e);
    }
  }

  /** A roster that matches the plan is a population with fresh, distinct ids, and its kept particles were alive and home. */
  lemma EncajaPlan(ps: seq<Particula>, viejos: seq<Particula>, fs: seq<Ficha>, id0: nat,
                   herencia: nat -> Mutacion, h0: nat, e: Entorno)
    requires |viejos| == |fs| && Poblacion(viejos, e, false) && IdsValidos(Ids(viejos), id0)
    requires Encaja(ps, Plan(fs, id0, herencia, h0).roster, viejos, e)
    ensures var b := Plan(fs, id0, herencia, h0);
            Poblacion(ps, e, false) && IdsValidos(Ids(ps), b.siguienteId) && id0 <= b.siguienteId
            && forall j :: 0 <= j < |ps| && b.roster[j].Queda? ==>
                 b.roster[j].indice < |fs| && ps[j] == viejos[b.roster[j].indice]
                 && fs[b.roster[j].indice].viva && fs[b.roster[j].indice].enCasa
  {
    var b := Plan(fs, id0, herencia, h0);
    PlanEntradas(fs, id0, herencia, h0);
    PlanCuentas(fs, id0, herencia, h0);
    PlanIds(Ids(viejos), fs, id0, herencia, h0);
    EncajaIds(ps, b.roster, viejos, e);
    EncajaPoblacion(ps, b.roster, viejos, e);
    forall j | 0 <= j < |ps| && b.roster[j].Queda?
      ensures b.roster[j].indice < |fs| && ps[j] == viejos[b.roster[j].indice]
    {
      assert Corresponde(ps[j], b.roster[j], viejos, e);
    }
  }

  lemma IdsCrecen(ps: seq<Particula>, tope: int, tope2: int)
    requires IdsValidos(Ids(ps), tope) && tope <= tope2
    ensures IdsValidos(Ids(ps), tope2)
  {
  }

  lemma IdsAgregar(ps: seq<Particula>, tope: int, p: Particula)
    requires IdsValidos(Ids(ps), tope) && p.id == tope >= 0
    ensures IdsValidos(Ids(ps + [p]), tope + 1)
  {
    assert Ids(ps + [p]) == Ids(ps) + [p.id];
  }

  /** Every child in the roster is one of `nacidos`. */
  ghost predicate NacenEn(ps: seq<Particula>, roster: seq<Entrada>, nacidos: set<Particula>) {
    |ps| == |roster| && forall j :: 0 <= j < |ps| && roster[j].Nace? ==> ps[j] in nacidos
  }

  ghost predicate TodosVivos(nacidos: set<Particula>)
    reads nacidos`viva
  {
    forall p :: p in nacidos ==> p.viva
  }

  lemma NacenVivos(ps: seq<Particula>, roster: seq<Entrada>, nacidos: set<Particula>)
    requires NacenEn(ps, roster, nacidos) && TodosVivos(nacidos)
    ensures forall j :: 0 <= j < |ps| && roster[j].Nace? ==> ps[j].viva
  {
  }

  /** Agents in the day states `js` stand on the cells of `js`. */
  lemma LlevaPosiciones(ps: seq<Particula>, js: seq<Jornada>)
    requires Lleva(ps, js)
    ensures Posiciones(ps) == Lugares(js)
  {
  }

  /** No agent of `ps` is one of `qs`. */
  ghost predicate Ajenas(ps: seq<Particula>, qs: seq<Particula>) {
    forall i, j :: 0 <= i < |ps| && 0 <= j < |qs| ==> ps[i] != qs[j]
  }

  /** No agent occurs twice. */
  ghost predicate Distintas(ps: seq<Particula>) {
    forall i, j :: 0 <= i < j < |ps| ==> ps[i] != ps[j]
  }

  lemma IdsDistintas(ps: seq<Particula>, tope: int)
    requires IdsValidos(Ids(ps), tope)
    ensures Distintas(ps)
  {
    forall i, j | 0 <= i < j < |ps| ensures ps[i] != ps[j] {
      assert Ids(ps)[i] != Ids(ps)[j];
    }
  }

  class Simulacion {
    const entorno: Entorno
    const numParticulasInicial: int
    const pasosPorDia: int
    const frecuenciaDepredadores: int
    const cantidadDepredadores: int
    var diaActual: int
    var contadorId: int
    var historialDias: seq<Estadisticas>
    var particulas: seq<Particula>
    var depredadores: seq<Particula>

    ghost predicate Valid()
      reads this`diaActual, this`contadorId, this`particulas, this`depredadores, entorno
      reads particulas`posicionActual, particulas`comidaConsumida, particulas`camino, particulas`pasosRealizados, particulas`enCasa
      reads depredadores`posicionActual, depredadores`comidaConsumida, depredadores`camino, depredadores`pasosRealizados
      reads depredadores`enCasa
    {
      Base() && Poblacion(particulas, entorno, false) && IdsValidos(Ids(particulas), contadorId)
    }

    /** Everything `Valid` asks except of the particle roster. */
    ghost predicate Base()
      reads this`diaActual, this`contadorId, this`depredadores, entorno
      reads depredadores`posicionActual, depredadores`comidaConsumida, depredadores`camino, depredadores`pasosRealizados
      reads depredadores`enCasa
    {
      entorno.Valid() && entorno.ancho >= 1 && entorno.alto >= 1 && diaActual >= 1 && contadorId >= 0
      && Poblacion(depredadores, entorno, true) && IdsValidos(Ids(depredadores), contadorId)
    }

    /** Day 1, no history, no predators, and the initial particles created. */
    constructor (entorno: Entorno, numParticulasInicial: int, pasosPorDia: int,
                 frecuenciaDepredadores: int, cantidadDepredadores: int, azar: Azar)
      requires entorno.Valid() && entorno.ancho >= 1 && entorno.alto >= 1
      modifies azar`usados
      ensures Valid()
      ensures this.entorno == entorno && this.numParticulasInicial == numParticulasInicial
      ensures this.pasosPorDia == pasosPorDia && this.frecuenciaDepredadores == frecuenciaDepredadores
      ensures this.cantidadDepredadores == cantidadDepredadores
      ensures diaActual == 1 && historialDias == [] && depredadores == []
      ensures |particulas| == Max(numParticulasInicial, 0) && contadorId == |particulas|
      ensures azar.usados == old(azar.usados) + 2 * |particulas|
      ensures forall i :: 0 <= i < |particulas| ==> fresh(particulas[i]) && Recien(particulas[i], i, false)
    {
      this.entorno := entorno;
      this.numParticulasInicial := numParticulasInicial;
      this.pasosPorDia := pasosPorDia;
      this.frecuenciaDepredadores := frecuenciaDepredadores;
      this.cantidadDepredadores := cantidadDepredadores;
      diaActual := 1;
      contadorId := 0;
      historialDias := [];
      depredadores := [];
      particulas := [];
      new;
      CrearParticulasIniciales(azar);
    }

    /** The next id from the counter. */
    method ObtenerNuevoId() returns (id: int)
      modifies this`contadorId
      ensures id == old(contadorId) && contadorId == old(contadorId) + 1
    {
      id := contadorId;
      contadorId := contadorId + 1;
    }

    /** A new agent on a drawn home cell, with the next id. */
    method NuevoAgente(depredador: bool, azar: Azar) returns (p: Particula)
      requires entorno.ancho >= 1 && entorno.alto >= 1
      modifies this`contadorId, azar`usados
      ensures fresh(p) && Recien(p, old(contadorId), depredador) && Integrante(p, entorno, depredador)
      ensures contadorId == old(contadorId) + 1 && azar.usados == old(azar.usados) + 2
    {
      var id := ObtenerNuevoId();
      p := new Particula(id, entorno, None, 0, Ninguna, depredador, azar);
    }

    /** `numParticulasInicial` new particles, each on a drawn home cell with the next id. */
    method CrearParticulasIniciales(azar: Azar)
      requires Valid()
      modifies this`particulas, this`contadorId, azar`usados
      ensures Valid()
      ensures |particulas| == |old(particulas)| + Max(numParticulasInicial, 0)
      ensures particulas[..|old(particulas)|] == old(particulas)
      ensures contadorId == old(contadorId) + Max(numParticulasInicial, 0)
      ensures azar.usados == old(azar.usados) + 2 * Max(numParticulasInicial, 0)
      ensures forall i :: |old(particulas)| <= i < |particulas| ==>
                fresh(particulas[i]) && Recien(particulas[i], old(contadorId) + (i - |old(particulas)|), false)
    {
      ghost var n0, c0, u0 := |particulas|, contadorId, azar.usados;
      var k := 0;
      while k < numParticulasInicial
        invariant 0 <= k <= Max(numParticulasInicial, 0)
        invariant |particulas| == n0 + k && particulas[..n0] == old(particulas)
        invariant contadorId == c0 + k && azar.usados == u0 + 2 * k
        invariant forall i :: n0 <= i < |particulas| ==> fresh(particulas[i])
        invariant Recientes(particulas, n0, c0, false) && Poblacion(particulas, entorno, false)
        invariant IdsValidos(Ids(particulas), contadorId)
      {
        var p := NuevoAgente(false, azar);
        IdsAgregar(particulas, contadorId - 1, p);
        PoblacionAgregar(particulas, entorno, false, p);
        RecientesAgregar(particulas, n0, c0, false, p);
        particulas := particulas + [p];
        k := k + 1;
      }
      IdsCrecen(depredadores, c0, contadorId);
    }

    /**
     * On the days predators appear, `cantidadDepredadores` new predators; it
     * reports whether they appeared.
     */
    method GenerarDepredadores(azar: Azar) returns (aparecen: bool)
      requires Valid()
      modifies this`depredadores, this`contadorId, azar`usados
      ensures Valid()
      ensures aparecen == Aparecen(frecuenciaDepredadores, diaActual)
      ensures var n := if aparecen then Max(cantidadDepredadores, 0) else 0;
              |depredadores| == |old(depredadores)| + n && depredadores[..|old(depredadores)|] == old(depredadores)
              && contadorId == old(contadorId) + n && azar.usados == old(azar.usados) + 2 * n
      ensures forall i :: |old(depredadores)| <= i < |depredadores| ==>
                fresh(depredadores[i]) && Recien(depredadores[i], old(contadorId) + (i - |old(depredadores)|), true)
    {
      if frecuenciaDepredadores > 0 && diaActual % frecuenciaDepredadores == 0 {
        CrearDepredadores(azar);
        return true;
      }
      return false;
    }

    /** `cantidadDepredadores` new predators, each on a drawn home cell with the next id. */
    method CrearDepredadores(azar: Azar)
      requires Valid()
      modifies this`depredadores, this`contadorId, azar`usados
      ensures Valid()
      ensures |depredadores| == |old(depredadores)| + Max(cantidadDepredadores, 0)
      ensures depredadores[..|old(depredadores)|] == old(depredadores)
      ensures contadorId == old(contadorId) + Max(cantidadDepredadores, 0)
      ensures azar.usados == old(azar.usados) + 2 * Max(cantidadDepredadores, 0)
      ensures forall i :: |old(depredadores)| <= i < |depredadores| ==>
                fresh(depredadores[i]) && Recien(depredadores[i], old(contadorId) + (i - |old(depredadores)|), true)
    {
      ghost var n0, c0, u0 := |depredadores|, contadorId, azar.usados;
      var k := 0;
      while k < cantidadDepredadores
        invariant 0 <= k <= Max(cantidadDepredadores, 0)
        invariant |depredadores| == n0 + k && depredadores[..n0] == old(depredadores)
        invariant contadorId == c0 + k && azar.usados == u0 + 2 * k
        invariant forall i :: n0 <= i < |depredadores| ==> fresh(depredadores[i])
        invariant Recientes(depredadores, n0, c0, true) && Poblacion(depredadores, entorno, true)
        invariant IdsValidos(Ids(depredadores), contadorId)
      {
        var d := NuevoAgente(true, azar);
        IdsAgregar(depredadores, contadorId - 1, d);
        PoblacionAgregar(depredadores, entorno, true, d);
        RecientesAgregar(depredadores, n0, c0, true, d);
        depredadores := depredadores + [d];
        k := k + 1;
      }
      IdsCrecen(particulas, c0, contadorId);
    }

    /** Every agent of `ps` takes one step, in roster order: the round is `Marchar` of their state. */
    method MoverTodas(ps: seq<Particula>, azar: Azar, ghost ms: seq<Marchante>, ghost depredador: bool,
                      ghost otros: seq<Particula>, ghost os: seq<Marchante>, ghost js: seq<Jornada>)
      requires entorno.Valid() && Distintas(ps) && Poblacion(ps, entorno, depredador)
      requires Presentes(ps, ms) && Lleva(ps, Dias(ms))
      requires Ajenas(otros, ps) && Presentes(otros, os) && Lleva(otros, js)
      modifies ps`posicionActual, ps`comidaConsumida, ps`camino, ps`pasosRealizados, ps`enCasa
      modifies entorno`posicionesComida, entorno`comidaActual, entorno`particulasEnPosicion, azar`usados
      ensures entorno.Valid() && Poblacion(ps, entorno, depredador)
      ensures var m := Marchar(entorno.ancho, entorno.alto, ms, old(entorno.Estado()), azar.fuente, old(azar.usados), |ps|);
              Lleva(ps, m.jornadas) && entorno.Estado() == m.despensa && azar.usados == m.usados
      ensures Presentes(ps, ms) && Presentes(otros, os) && Lleva(otros, js)
    {
      ghost var d0, u0 := entorno.Estado(), azar.usados;
      ghost var ruta := Ruta(entorno.ancho, entorno.alto, ms, d0, azar.fuente, u0);
      PoblacionCaminan(ps, entorno, depredador, Dias(ms));
      RutaEncadena(entorno.ancho, entorno.alto, ms, d0, azar.fuente, u0);
      RutaSana(entorno.ancho, entorno.alto, entorno.comidaTotal, Casas(ps), ms, d0, azar.fuente, u0);
      MoverDesde(ps, azar, ms, ruta, depredador);
      assert ruta[|ps|].jornadas == Marchar(entorno.ancho, entorno.alto, ms, d0, azar.fuente, u0, |ps|).jornadas;
      PoblacionCaminan(ps, entorno, depredador, ruta[|ps|].jornadas);
      forall k | 0 <= k < |otros| ensures otros[k].Hoy() == js[k] && otros[k].viva == os[k].viva {
        assert otros[k] !in ps;
      }
    }

    /** The agents step in roster order, along the stages of `ruta`. */
    method MoverDesde(ps: seq<Particula>, azar: Azar, ghost ms: seq<Marchante>, ghost ruta: seq<Marcha>,
                      ghost depredador: bool)
      requires Distintas(ps) && Presentes(ps, ms) && Pertenecen(ps, entorno, depredador) && entorno.porcentajeComida.den > 0
      requires Encadena(entorno.ancho, entorno.alto, ms, azar.fuente, ruta)
      requires Sanas(entorno.ancho, entorno.alto, entorno.comidaTotal, Casas(ps), ruta)
      requires Deja(entorno, ps, azar, ruta[0])
      modifies ps`posicionActual, ps`comidaConsumida, ps`camino, ps`pasosRealizados, ps`enCasa
      modifies entorno`posicionesComida, entorno`comidaActual, entorno`particulasEnPosicion, azar`usados
      ensures Deja(entorno, ps, azar, ruta[|ps|])
    {
      var i := 0;
      while i < |ps|
        invariant 0 <= i <= |ps| && Presentes(ps, ms) && Deja(entorno, ps, azar, ruta[i])
      {
        MoverUna(ps, ps[i], i, azar, ms, ruta, depredador);
        i := i + 1;
      }
    }

    /** Agent `i` of `ps` takes its step: the state moves from stage `i` of `ruta` to stage `i + 1`. */
    method MoverUna(ps: seq<Particula>, p: Particula, i: nat, azar: Azar, ghost ms: seq<Marchante>,
                    ghost ruta: seq<Marcha>, ghost depredador: bool)
      requires i < |ps| && ps[i] == p && Distintas(ps) && Presentes(ps, ms) && Pertenecen(ps, entorno, depredador)
      requires entorno.porcentajeComida.den > 0
      requires Encadena(entorno.ancho, entorno.alto, ms, azar.fuente, ruta)
      requires Sanas(entorno.ancho, entorno.alto, entorno.comidaTotal, Casas(ps), ruta)
      requires Deja(entorno, ps, azar, ruta[i])
      modifies p`posicionActual, p`comidaConsumida, p`camino, p`pasosRealizados, p`enCasa
      modifies entorno`posicionesComida, entorno`comidaActual, entorno`particulasEnPosicion, azar`usados
      ensures Deja(entorno, ps, azar, ruta[i + 1])
    {
      ghost var a := ruta[i];
      assert |a.jornadas| == |ms| && ruta[i + 1] == Avance(entorno.ancho, entorno.alto, ms[i], a, i, azar.fuente);
      assert Caminan(Casas(ps), a.jornadas) && Coherente(entorno.ancho, entorno.alto, entorno.comidaTotal, a.despensa);
      assert p in ps && Casas(ps)[i] == p.posInicial;
      assert p.viva == ms[i].viva && p.ComoOcupante() == ms[i].ocupante && p.Hoy() == a.jornadas[i];
      var _ := p.RealizarPaso(azar);
      forall k | 0 <= k < |ps| && k != i ensures ps[k].Hoy() == a.jornadas[k] {
        assert ps[k] != p;
      }
    }

    /**
     * Every predator off the home cells bites, in roster order, each live
     * particle on its cell that is also off the home cells; the fatal bites are
     * counted. The outcome is `Atacar` on the positions and flags of the moment.
     */
    method ProcesarAtaquesDepredadores(azar: Azar, ghost js: seq<Jornada>, ghost ks: seq<Jornada>)
      returns (muertes: nat)
      requires Valid() && Lleva(particulas, js) && Lleva(depredadores, ks)
      modifies particulas`viva, azar`mordidas
      ensures Valid() && Lleva(particulas, js) && Lleva(depredadores, ks)
      ensures entorno.Estado() == old(entorno.Estado()) && azar.usados == old(azar.usados)
      ensures var s := Atacar(entorno.ancho, entorno.alto, old(Posiciones(depredadores)), old(Posiciones(particulas)),
                              Ronda(old(Vivas(particulas)), 0, old(azar.mordidas)), azar.fatal);
              Vivas(particulas) == s.vivas && muertes == s.muertes && azar.mordidas == s.mordidas
    {
      IdsDistintas(particulas, contadorId);
      muertes := AtacarTodos(azar);
    }

    /** The loop of `_procesar_ataques_depredadores`, over the predators in roster order. */
    method AtacarTodos(azar: Azar) returns (muertes: nat)
      requires Distintas(particulas)
      modifies particulas`viva, azar`mordidas
      ensures var s := Atacar(entorno.ancho, entorno.alto, old(Posiciones(depredadores)), old(Posiciones(particulas)),
                              Ronda(old(Vivas(particulas)), 0, old(azar.mordidas)), azar.fatal);
              Vivas(particulas) == s.vivas && muertes == s.muertes && azar.mordidas == s.mordidas
    {
      ghost var pos, dep := Posiciones(particulas), Posiciones(depredadores);
      ghost var r0 := Ronda(Vivas(particulas), 0, azar.mordidas);
      ghost var ancho, alto := entorno.ancho, entorno.alto;
      muertes := 0;
      var d := 0;
      while d < |depredadores|
        invariant 0 <= d <= |depredadores|
        invariant var s := Atacar(ancho, alto, dep[..d], pos, r0, azar.fatal);
                  Refleja(particulas, pos, s.vivas) && muertes == s.muertes && azar.mordidas == s.mordidas
      {
        ghost var s := Atacar(ancho, alto, dep[..d], pos, r0, azar.fatal);
        assert dep[..d + 1][..d] == dep[..d];
        muertes := AtacarCon(depredadores[d].posicionActual, azar, muertes, pos, s);
        d := d + 1;
      }
      assert dep[..|depredadores|] == dep;
    }

    /** One predator of `_procesar_ataques_depredadores`, standing on `c`: off the border it bites there. */
    method AtacarCon(c: Celda, azar: Azar, muertes0: nat, ghost pos: seq<Celda>, ghost r: Ronda) returns (muertes: nat)
      requires Distintas(particulas) && Refleja(particulas, pos, r.vivas)
      requires muertes0 == r.muertes && azar.mordidas == r.mordidas
      modifies particulas`viva, azar`mordidas
      ensures var s := if EnBorde(entorno.ancho, entorno.alto, c) then r
                       else Morder(entorno.ancho, entorno.alto, c, pos, r, azar.fatal, |pos|);
              Refleja(particulas, pos, s.vivas) && muertes == s.muertes && azar.mordidas == s.mordidas
    {
      muertes := muertes0;
      if !entorno.EsCasa(c.0, c.1) {
        muertes := MorderEn(c, azar, muertes0, pos, r.vivas);
      }
    }

    /** One predator at the off-border cell `c` bites, in roster order, each live particle on `c`. */
    method MorderEn(c: Celda, azar: Azar, muertes0: nat, ghost pos: seq<Celda>, ghost vivas: seq<bool>)
      returns (muertes: nat)
      requires Distintas(particulas) && !EnBorde(entorno.ancho, entorno.alto, c) && Refleja(particulas, pos, vivas)
      modifies particulas`viva, azar`mordidas
      ensures var s := Morder(entorno.ancho, entorno.alto, c, pos, Ronda(vivas, muertes0, old(azar.mordidas)), azar.fatal, |pos|);
              Refleja(particulas, pos, s.vivas) && muertes == s.muertes && azar.mordidas == s.mordidas
    {
      ghost var r0 := Ronda(vivas, muertes0, azar.mordidas);
      ghost var ancho, alto := entorno.ancho, entorno.alto;
      muertes := muertes0;
      var k := 0;
      while k < |particulas|
        invariant 0 <= k <= |particulas|
        invariant var s := Morder(ancho, alto, c, pos, r0, azar.fatal, k);
                  Refleja(particulas, pos, s.vivas) && muertes == s.muertes && azar.mordidas == s.mordidas
      {
        ghost var s := Morder(ancho, alto, c, pos, r0, azar.fatal, k);
        var particula := particulas[k];
        if particula.viva && particula.posicionActual == c && !entorno.EsCasa(c.0, c.1) {
          MorderMuerde(ancho, alto, c, pos, r0, azar.fatal, k);
          var fatal := particula.RecibirMordida(azar);
          if fatal {
            muertes := muertes + 1;
            forall j | 0 <= j < |particulas| ensures particulas[j].viva == s.vivas[k := false][j] {
              if j != k {
                assert particulas[j] != particula;
              }
            }
          }
        } else {
          MorderSalta(ancho, alto, c, pos, r0, azar.fatal, k);
        }
        k := k + 1;
      }
    }
 
    /**
     * `_evaluar_fin_dia`: the next roster is `Plan` of the particles' state:
     * survivors in order, each followed by its child when it reproduces; the
     * particles that do not survive are marked dead; the day's tallies are
     * recorded in the history.
     */
    method EvaluarFinDia(azar: Azar, numDepredadores: int, muertesPorDepredador: int) returns (est: Estadisticas)
      requires Valid()
      modifies this`particulas, this`contadorId, this`historialDias, particulas`viva, azar`herencias, azar`usados
      ensures Valid()
      ensures var b := Plan(old(Fichas(particulas)), old(contadorId), azar.herencia, old(azar.herencias));
              Encaja(particulas, b.roster, old(particulas), entorno)
              && contadorId == b.siguienteId && azar.herencias == b.herencias
              && est == Estadisticas(diaActual, Iniciales(old(Fichas(particulas))), |particulas|, b.muertes,
                                     b.reproducciones, b.comida, entorno.comidaActual, entorno.comidaTotal,
                                     Contar(Mutaciones(particulas), Ninguna), Contar(Mutaciones(particulas), Velocidad),
                                     Contar(Mutaciones(particulas), Prioridad), b.velocidad, b.prioridad,
                                     numDepredadores, muertesPorDepredador)
      ensures forall k :: 0 <= k < |old(particulas)| ==>
                old(particulas)[k].viva == (old(particulas[k].viva) && old(particulas[k].enCasa))
      ensures forall p :: p in particulas ==> p.viva && (p in old(particulas) || fresh(p))
      ensures historialDias == old(historialDias) + [est] && azar.usados == old(azar.usados)
    {
      ghost var viejos, fs := particulas, Fichas(particulas);
      ghost var id0, h0 := contadorId, azar.herencias;
      var iniciales := |particulas|;
      var sobrevivientes, cuentas := Depurar(azar);
      ghost var b := Plan(fs, id0, azar.herencia, h0);
      EncajaPlan(sobrevivientes, viejos, fs, id0, azar.herencia, h0, entorno);
      IdsCrecen(depredadores, id0, contadorId);
      forall p | p in sobrevivientes ensures p.viva && (p in viejos || fresh(p)) {
        var j :| 0 <= j < |sobrevivientes| && sobrevivientes[j] == p;
        if b.roster[j].Queda? {
          assert viejos[b.roster[j].indice] == p;
        }
      }
      est := Estadisticas(diaActual, iniciales, |sobrevivientes|, cuentas.muertes, cuentas.reproducciones, cuentas.comida,
                          entorno.comidaActual, entorno.comidaTotal,
                          Contar(Mutaciones(sobrevivientes), Ninguna), Contar(Mutaciones(sobrevivientes), Velocidad),
                          Contar(Mutaciones(sobrevivientes), Prioridad), cuentas.velocidad, cuentas.prioridad,
                          numDepredadores, muertesPorDepredador);
      Registrar(sobrevivientes, est);
    }

    /** The new roster replaces the old one and the day's tallies join the history. */
    method Registrar(sobrevivientes: seq<Particula>, est: Estadisticas)
      requires Base() && Poblacion(sobrevivientes, entorno, false) && IdsValidos(Ids(sobrevivientes), contadorId)
      modifies this`particulas, this`historialDias
      ensures Valid() && particulas == sobrevivientes && historialDias == old(historialDias) + [est]
    {
      particulas := sobrevivientes;
      historialDias := historialDias + [est];
    }

    /** The loop of `_evaluar_fin_dia`: the fold step for every particle in roster order. */
    method Depurar(azar: Azar) returns (sobrevivientes: seq<Particula>, cuentas: Cuentas)
      requires Valid()
      modifies particulas`viva, this`contadorId, azar`herencias, azar`usados
      ensures var b := Plan(old(Fichas(particulas)), old(contadorId), azar.herencia, old(azar.herencias));
              Cuadra(cuentas, b) && contadorId == b.siguienteId && azar.herencias == b.herencias
              && Encaja(sobrevivientes, b.roster, particulas, entorno)
              && forall j :: 0 <= j < |sobrevivientes| && b.roster[j].Nace? ==> fresh(sobrevivientes[j]) && sobrevivientes[j].viva
      ensures forall k :: 0 <= k < |particulas| ==>
                particulas[k].viva == (old(particulas[k].viva) && old(particulas[k].enCasa))
      ensures azar.usados == old(azar.usados)
    {
      ghost var fs := Fichas(particulas);
      IdsDistintas(particulas, contadorId);
      sobrevivientes, cuentas := Depurados(azar, fs);
      assert forall k :: 0 <= k < |particulas| ==> particulas[k].viva == Marcas(fs, |fs|)[k];
    }

    /** The loop of `_evaluar_fin_dia` over the particles whose end-of-day records are `fs`. */
    method Depurados(azar: Azar, ghost fs: seq<Ficha>) returns (sobrevivientes: seq<Particula>, cuentas: Cuentas)
      requires Distintas(particulas) && Poblacion(particulas, entorno, false) && fs == Fichas(particulas) && contadorId >= 0
      modifies particulas`viva, this`contadorId, azar`herencias, azar`usados
      ensures var b := Plan(fs, old(contadorId), azar.herencia, old(azar.herencias));
              Cuadra(cuentas, b) && contadorId == b.siguienteId && azar.herencias == b.herencias
              && Encaja(sobrevivientes, b.roster, particulas, entorno)
              && forall j :: 0 <= j < |sobrevivientes| && b.roster[j].Nace? ==> fresh(sobrevivientes[j]) && sobrevivientes[j].viva
      ensures Banderas(particulas, Marcas(fs, |fs|)) && azar.usados == old(azar.usados)
    {
      ghost var id0, h0 := contadorId, azar.herencias;
      ghost var b := Inicio(id0, h0);
      ghost var nacidos: set<Particula> := {};
      sobrevivientes, cuentas := [], Cuentas(0, 0, 0, 0, 0);
      var i := 0;
      while i < |particulas|
        invariant 0 <= i <= |particulas| == |fs|
        invariant b == Plan(fs[..i], id0, azar.herencia, h0)
        invariant Cuadra(cuentas, b) && contadorId == b.siguienteId && azar.herencias == b.herencias
        invariant azar.usados == old(azar.usados)
        invariant Encaja(sobrevivientes, b.roster, particulas, entorno)
        invariant NacenEn(sobrevivientes, b.roster, nacidos) && TodosVivos(nacidos)
        invariant forall p :: p in nacidos ==> fresh(p)
        invariant Banderas(particulas, Marcas(fs, i))
      {
        assert fs[..i + 1][..i] == fs[..i];
        assert Marcas(fs, i)[i := fs[i].viva && fs[i].enCasa] == Marcas(fs, i + 1);
        sobrevivientes, cuentas, b, nacidos :=
          DepurarPaso(azar, particulas[i], i, sobrevivientes, cuentas, b, fs[i], nacidos, Marcas(fs, i));
        i := i + 1;
      }
      assert fs[..i] == fs;
      NacenVivos(sobrevivientes, b.roster, nacidos);
    }

    /** One turn of the loop of `_evaluar_fin_dia`, with the roster built so far. */
    method DepurarPaso(azar: Azar, particula: Particula, i: nat, sobrevivientes: seq<Particula>, cuentas: Cuentas,
                       ghost b: Balance, ghost f: Ficha, ghost nacidos: set<Particula>, ghost vs: seq<bool>)
      returns (sobrevivientes2: seq<Particula>, cuentas2: Cuentas, ghost b2: Balance, ghost nacidos2: set<Particula>)
      requires i < |particulas| && particulas[i] == particula && Distintas(particulas) && Banderas(particulas, vs)
      requires Integrante(particula, entorno, false) && particula !in nacidos
      requires f == Ficha(particula.viva, particula.enCasa, particula.comidaConsumida)
      requires Cuadra(cuentas, b) && contadorId == b.siguienteId && azar.herencias == b.herencias
      requires Encaja(sobrevivientes, b.roster, particulas, entorno)
      requires NacenEn(sobrevivientes, b.roster, nacidos) && TodosVivos(nacidos)
      modifies particula`viva, this`contadorId, azar`herencias, azar`usados
      ensures b2 == Evaluar(b, i, f, azar.herencia)
      ensures Cuadra(cuentas2, b2) && contadorId == b2.siguienteId && azar.herencias == b2.herencias
      ensures Encaja(sobrevivientes2, b2.roster, particulas, entorno)
      ensures NacenEn(sobrevivientes2, b2.roster, nacidos2) && TodosVivos(nacidos2)
      ensures forall p :: p in nacidos2 ==> p in nacidos || fresh(p)
      ensures Banderas(particulas, vs[i := f.viva && f.enCasa]) && azar.usados == old(azar.usados)
    {
      var nuevos: seq<Particula>;
      ghost var agregadas: seq<Entrada>;
      cuentas2, nuevos, agregadas, b2 := EvaluarParticula(particula, azar, cuentas, i, particulas, b, f);
      EncajaConcat(sobrevivientes, b.roster, nuevos, agregadas, particulas, entorno);
      nacidos2 := nacidos + (set j | 0 <= j < |nuevos| && agregadas[j].Nace? :: nuevos[j]);
      sobrevivientes2 := sobrevivientes + nuevos;
      forall j | 0 <= j < |sobrevivientes2| && b2.roster[j].Nace? ensures sobrevivientes2[j] in nacidos2 {
        if j < |sobrevivientes| {
          assert sobrevivientes2[j] == sobrevivientes[j] && b2.roster[j] == b.roster[j];
        } else {
          assert sobrevivientes2[j] == nuevos[j - |sobrevivientes|] && b2.roster[j] == agregadas[j - |sobrevivientes|];
        }
      }
      forall k | 0 <= k < |particulas| ensures particulas[k].viva == vs[i := f.viva && f.enCasa][k] {
        if k != i {
          assert particulas[k] != particula;
        }
      }
    }

    /**
     * The fold step for one particle: a dead one counts as a death; a live one
     * adds its meals; one away from home is a death and is marked dead; one at
     * home is kept and, when it ate twice, followed by a child with the next id
     * and the next inherited mutation.
     */
    method EvaluarParticula(particula: Particula, azar: Azar, c: Cuentas, ghost i: nat,
                            ghost viejos: seq<Particula>, ghost b: Balance, ghost f: Ficha)
      returns (c2: Cuentas, nuevos: seq<Particula>, ghost agregadas: seq<Entrada>, ghost e: Balance)
      requires i < |viejos| && viejos[i] == particula && Integrante(particula, entorno, false)
      requires f == Ficha(particula.viva, particula.enCasa, particula.comidaConsumida)
      requires Cuadra(c, b) && contadorId == b.siguienteId && azar.herencias == b.herencias
      modifies particula`viva, this`contadorId, azar`herencias, azar`usados
      ensures e == Evaluar(b, i, f, azar.herencia)
      ensures Cuadra(c2, e) && contadorId == e.siguienteId && azar.herencias == e.herencias
              && e.roster == b.roster + agregadas && Encaja(nuevos, agregadas, viejos, entorno)
              && forall j :: 0 <= j < |nuevos| ==> agregadas[j].Queda? || (fresh(nuevos[j]) && nuevos[j].viva)
      ensures particula.viva == (old(particula.viva) && particula.enCasa) && azar.usados == old(azar.usados)
    {
      e := Evaluar(b, i, f, azar.herencia);
      c2, nuevos, agregadas := c, [], [];
      if !particula.viva {
        c2 := c2.(muertes := c2.muertes + 1);
      } else {
        var resultado := particula.EvaluarFinDia();
        c2 := c2.(comida := c2.comida + particula.comidaConsumida);
        if resultado.sobrevive {
          nuevos, agregadas := [particula], [Queda(i)];
          if resultado.reproduce {
            var mutacionHijo := azar.Herencia();
            var nuevoId := ObtenerNuevoId();
            var hijo := particula.CrearHijo(nuevoId, mutacionHijo, azar);
            nuevos, agregadas := nuevos + [hijo], agregadas + [Nace(i, nuevoId, mutacionHijo)];
            c2 := c2.(reproducciones := c2.reproducciones + 1);
            if mutacionHijo == Velocidad {
              c2 := c2.(velocidad := c2.velocidad + 1);
            } else if mutacionHijo == Prioridad {
              c2 := c2.(prioridad := c2.prioridad + 1);
            }
          }
        } else {
          c2 := c2.(muertes := c2.muertes + 1);
          particula.viva := false;
        }
      }
    }

    /**
     * `_preparar_siguiente_dia`: the day count moves on, the food is sown
     * afresh, and every particle starts a fresh day at its home.
     */
    method PrepararSiguienteDia(azar: Azar)
      requires Valid()
      modifies this`diaActual, entorno`posicionesComida, entorno`comidaTotal, entorno`comidaActual, azar`usados
      modifies particulas`posicionActual, particulas`comidaConsumida, particulas`camino, particulas`pasosRealizados
      modifies particulas`enCasa
      ensures Valid() && diaActual == old(diaActual) + 1
      ensures entorno.posicionesComida
              == ComidaSembrada(entorno.ancho, entorno.alto, entorno.porcentajeComida, azar.fuente, old(azar.usados))
      ensures entorno.comidaTotal == entorno.comidaActual == |entorno.posicionesComida|
      ensures azar.usados
              == old(azar.usados) + CantidadComida(NumInteriores(entorno.ancho, entorno.alto), entorno.porcentajeComida)
      ensures forall p :: p in particulas ==> p.Hoy() == Amanecer(p.posInicial)
    {
      diaActual := diaActual + 1;
      entorno.ReestablecerComida(azar);
      PrepararParticulas();
    }

    /** The loop of `_preparar_siguiente_dia`: every particle in turn starts a fresh day. */
    method PrepararParticulas()
      requires Valid()
      modifies particulas`posicionActual, particulas`comidaConsumida, particulas`camino, particulas`pasosRealizados
      modifies particulas`enCasa
      ensures Valid() && forall p :: p in particulas ==> p.Hoy() == Amanecer(p.posInicial)
    {
      var i := 0;
      while i < |particulas|
        invariant 0 <= i <= |particulas| && Valid()
        invariant forall k :: 0 <= k < i ==> particulas[k].Hoy() == Amanecer(particulas[k].posInicial)
      {
        PrepararUna(particulas[i]);
        i := i + 1;
      }
    }

    /** Particle `p` of the roster starts a fresh day; no other agent changes. */
    method PrepararUna(p: Particula)
      requires Valid() && p in particulas
      modifies p`posicionActual, p`comidaConsumida, p`camino, p`pasosRealizados, p`enCasa
      ensures Valid() && p.Hoy() == Amanecer(p.posInicial)
    {
      assert Integrante(p, entorno, false);
      p.PrepararNuevoDia();
      forall q | q in particulas ensures Integrante(q, entorno, false) {
        if q != p {
          assert old(Integrante(q, entorno, false));
        }
      }
    }

    /**
     * `simular_dia`: the predators of the day appear, `pasosPorDia` rounds are
     * played, the day is evaluated, the predators leave and the next day is
     * prepared. The statistics join the history under the day's number.
     */
    method SimularDia(azar: Azar) returns (est: Estadisticas)
      requires Valid()
      modifies this`diaActual, this`contadorId, this`historialDias, this`particulas, this`depredadores
      modifies entorno`posicionesComida, entorno`comidaTotal, entorno`comidaActual, entorno`particulasEnPosicion
      modifies azar`usados, azar`mordidas, azar`herencias
      modifies particulas`posicionActual, particulas`comidaConsumida, particulas`camino, particulas`pasosRealizados
      modifies particulas`enCasa, particulas`viva
      modifies depredadores`posicionActual, depredadores`comidaConsumida, depredadores`camino
      modifies depredadores`pasosRealizados, depredadores`enCasa
      ensures Valid() && depredadores == [] && diaActual == old(diaActual) + 1
      ensures historialDias == old(historialDias) + [est] && est.dia == old(diaActual)
      ensures est.depredadoresAparecidos
              == if Aparecen(frecuenciaDepredadores, old(diaActual)) then |old(depredadores)| + Max(cantidadDepredadores, 0)
                 else 0
      ensures est.particulasFinales == |particulas|
      ensures forall i :: 0 <= i < |particulas| ==>
                particulas[i].viva && particulas[i].Hoy() == Amanecer(particulas[i].posInicial)
                && (particulas[i] in old(particulas) || fresh(particulas[i]))
      ensures entorno.comidaTotal == entorno.comidaActual == |entorno.posicionesComida|
    {
      var numGenerados := 0;
      var aparecen := GenerarDepredadores(azar);
      if aparecen {
        numGenerados := |depredadores|;
      }
      forall q | q in depredadores ensures q in old(depredadores) || fresh(q) {
        var k :| 0 <= k < |depredadores| && depredadores[k] == q;
        if k < |old(depredadores)| {
          assert depredadores[..|old(depredadores)|][k] == q;
        }
      }
      var muertesTotal := JugarTurnos(azar);
      est := CerrarDia(azar, numGenerados, muertesTotal);
    }

    /**
     * `ejecutar_simulacion_completa`: whole days are simulated while particles
     * remain and the day number has not passed `maxDias`. Each day adds one
     * record, numbered by its day, to the history, which is returned.
     */
    method EjecutarSimulacionCompleta(maxDias: int, azar: Azar) returns (historial: seq<Estadisticas>)
      requires Valid()
      modifies this`diaActual, this`contadorId, this`historialDias, this`particulas, this`depredadores
      modifies entorno`posicionesComida, entorno`comidaTotal, entorno`comidaActual, entorno`particulasEnPosicion
      modifies azar`usados, azar`mordidas, azar`herencias
      modifies particulas`posicionActual, particulas`comidaConsumida, particulas`camino, particulas`pasosRealizados
      modifies particulas`enCasa, particulas`viva
      modifies depredadores`posicionActual, depredadores`comidaConsumida, depredadores`camino
      modifies depredadores`pasosRealizados, depredadores`enCasa
      ensures Valid() && historial == historialDias
      ensures |particulas| == 0 || diaActual > maxDias
      ensures old(diaActual) <= diaActual <= Max(old(diaActual), maxDias + 1)
      ensures |historial| == |old(historialDias)| + (diaActual - old(diaActual))
      ensures historial[..|old(historialDias)|] == old(historialDias)
      ensures forall k :: |old(historialDias)| <= k < |historial| ==>
                historial[k].dia == old(diaActual) + (k - |old(historialDias)|)
      ensures forall k :: |old(historialDias)| <= k < |historial| - 1 ==> historial[k].particulasFinales > 0
      ensures |historial| > |old(historialDias)| ==> historial[|historial| - 1].particulasFinales == |particulas|
    {
      while |particulas| > 0 && diaActual <= maxDias
        invariant Valid() && old(diaActual) <= diaActual <= Max(old(diaActual), maxDias + 1)
        invariant |historialDias| == |old(historialDias)| + (diaActual - old(diaActual))
        invariant historialDias[..|old(historialDias)|] == old(historialDias)
        invariant forall k :: |old(historialDias)| <= k < |historialDias| ==>
                    historialDias[k].dia == old(diaActual) + (k - |old(historialDias)|)
        invariant forall k :: |old(historialDias)| <= k < |historialDias| - 1 ==> historialDias[k].particulasFinales > 0
        invariant |historialDias| > |old(historialDias)| ==>
                    historialDias[|historialDias| - 1].particulasFinales == |particulas|
        invariant forall i :: 0 <= i < |particulas| ==> particulas[i] in old(particulas) || fresh(particulas[i])
        invariant depredadores == old(depredadores) || depredadores == []
        decreases maxDias - diaActual + 1
      {
        ghost var antes, registro := particulas, historialDias;
        var est := SimularDia(azar);
        forall i | 0 <= i < |particulas| ensures particulas[i] in old(particulas) || fresh(particulas[i]) {
          if particulas[i] in antes {
            var j :| 0 <= j < |antes| && antes[j] == particulas[i];
          }
        }
        assert historialDias[..|registro|] == registro;
      }
      historial := historialDias;
    }

    /** The end of `simular_dia`: the day is evaluated, the predators leave and the next day is prepared. */
    method CerrarDia(azar: Azar, numDepredadores: int, muertesPorDepredador: int) returns (est: Estadisticas)
      requires Valid()
      modifies this`diaActual, this`contadorId, this`historialDias, this`particulas, this`depredadores
      modifies entorno`posicionesComida, entorno`comidaTotal, entorno`comidaActual, azar`usados, azar`herencias
      modifies particulas`posicionActual, particulas`comidaConsumida, particulas`camino, particulas`pasosRealizados
      modifies particulas`enCasa, particulas`viva
      ensures Valid() && depredadores == [] && diaActual == old(diaActual) + 1
      ensures historialDias == old(historialDias) + [est] && est.dia == old(diaActual)
      ensures est.depredadoresAparecidos == numDepredadores && est.particulasFinales == |particulas|
      ensures forall i :: 0 <= i < |particulas| ==>
                particulas[i].viva && particulas[i].Hoy() == Amanecer(particulas[i].posInicial)
                && (particulas[i] in old(particulas) || fresh(particulas[i]))
      ensures entorno.comidaTotal == entorno.comidaActual == |entorno.posicionesComida|
    {
      est := Despedir(azar, numDepredadores, muertesPorDepredador);
      PrepararSiguienteDia(azar);
    }

    /** `_evaluar_fin_dia`, then the predators leave. */
    method Despedir(azar: Azar, numDepredadores: int, muertesPorDepredador: int) returns (est: Estadisticas)
      requires Valid()
      modifies this`contadorId, this`historialDias, this`particulas, this`depredadores
      modifies azar`usados, azar`herencias, particulas`viva
      ensures Valid() && depredadores == [] && diaActual == old(diaActual)
      ensures historialDias == old(historialDias) + [est] && est.dia == diaActual
      ensures est.depredadoresAparecidos == numDepredadores && est.particulasFinales == |particulas|
      ensures forall i :: 0 <= i < |particulas| ==>
                particulas[i].viva && (particulas[i] in old(particulas) || fresh(particulas[i]))
    {
      est := EvaluarFinDia(azar, numDepredadores, muertesPorDepredador);
      depredadores := [];
    }

    /** The `pasosPorDia` rounds of `simular_dia`, adding up the deaths by bites. */
    method JugarTurnos(azar: Azar) returns (muertesTotal: nat)
      requires Valid()
      modifies particulas`posicionActual, particulas`comidaConsumida, particulas`camino, particulas`pasosRealizados
      modifies particulas`enCasa, particulas`viva
      modifies depredadores`posicionActual, depredadores`comidaConsumida, depredadores`camino
      modifies depredadores`pasosRealizados, depredadores`enCasa
      modifies entorno`posicionesComida, entorno`comidaActual, entorno`particulasEnPosicion, azar`usados, azar`mordidas
      ensures Valid()
    {
      muertesTotal := 0;
      var paso := 0;
      while paso < pasosPorDia
        invariant Valid()
      {
        var muertes := Turno(azar);
        muertesTotal := muertesTotal + muertes;
        paso := paso + 1;
      }
    }

    /**
     * One round of the day: the particles step in roster order, then the
     * predators, over the same food and draws; then the predators bite. The
     * outcome is `Marchar` for each roster and `Atacar` on the cells reached.
     */
    method Turno(azar: Azar) returns (muertes: nat)
      requires Valid()
      modifies particulas`posicionActual, particulas`comidaConsumida, particulas`camino, particulas`pasosRealizados
      modifies particulas`enCasa, particulas`viva
      modifies depredadores`posicionActual, depredadores`comidaConsumida, depredadores`camino
      modifies depredadores`pasosRealizados, depredadores`enCasa
      modifies entorno`posicionesComida, entorno`comidaActual, entorno`particulasEnPosicion, azar`usados, azar`mordidas
      ensures Valid()
      ensures var m := Marchar(entorno.ancho, entorno.alto, old(Marchantes(particulas)), old(entorno.Estado()), azar.fuente,
                               old(azar.usados), |particulas|);
              var n := Marchar(entorno.ancho, entorno.alto, old(Marchantes(depredadores)), m.despensa, azar.fuente,
                               m.usados, |depredadores|);
              var s := Atacar(entorno.ancho, entorno.alto, Lugares(n.jornadas), Lugares(m.jornadas),
                              Ronda(old(Vivas(particulas)), 0, old(azar.mordidas)), azar.fatal);
              Lleva(particulas, m.jornadas) && Lleva(depredadores, n.jornadas) && entorno.Estado() == n.despensa
              && azar.usados == n.usados && Vivas(particulas) == s.vivas && muertes == s.muertes
              && azar.mordidas == s.mordidas
    {
      ghost var ms, cs, mordidas := Marchantes(particulas), Marchantes(depredadores), azar.mordidas;
      Dispuestas();
      VivasPresentes(particulas, ms);
      MarcharAmbos(azar, ms, cs);
      ghost var m := Marchar(entorno.ancho, entorno.alto, ms, old(entorno.Estado()), azar.fuente, old(azar.usados),
                             |particulas|);
      ghost var n := Marchar(entorno.ancho, entorno.alto, cs, m.despensa, azar.fuente, m.usados, |depredadores|);
      LlevaPosiciones(particulas, m.jornadas);
      LlevaPosiciones(depredadores, n.jornadas);
      ghost var s := Atacar(entorno.ancho, entorno.alto, Posiciones(depredadores), Posiciones(particulas),
                            Ronda(Vidas(ms), 0, mordidas), azar.fatal);
      muertes := ProcesarAtaquesDepredadores(azar, m.jornadas, n.jornadas);
      assert Vivas(particulas) == s.vivas && muertes == s.muertes && azar.mordidas == s.mordidas;
    }

    /** The two movement loops of a round of `simular_dia`: the particles as `ms`, then the predators as `cs`. */
    method MarcharAmbos(azar: Azar, ghost ms: seq<Marchante>, ghost cs: seq<Marchante>)
      requires Valid() && Presentes(particulas, ms) && Lleva(particulas, Dias(ms))
      requires Presentes(depredadores, cs) && Lleva(depredadores, Dias(cs))
      modifies particulas`posicionActual, particulas`comidaConsumida, particulas`camino, particulas`pasosRealizados
      modifies particulas`enCasa
      modifies depredadores`posicionActual, depredadores`comidaConsumida, depredadores`camino
      modifies depredadores`pasosRealizados, depredadores`enCasa
      modifies entorno`posicionesComida, entorno`comidaActual, entorno`particulasEnPosicion, azar`usados
      ensures Valid() && Vivas(particulas) == Vidas(ms)
      ensures var m := Marchar(entorno.ancho, entorno.alto, ms, old(entorno.Estado()), azar.fuente, old(azar.usados),
                               |particulas|);
              var n := Marchar(entorno.ancho, entorno.alto, cs, m.despensa, azar.fuente, m.usados, |depredadores|);
              Lleva(particulas, m.jornadas) && Lleva(depredadores, n.jornadas) && entorno.Estado() == n.despensa
              && azar.usados == n.usados
    {
      MoverParticulas(azar, ms, cs);
      ghost var m := Marchar(entorno.ancho, entorno.alto, ms, old(entorno.Estado()), azar.fuente, old(azar.usados),
                             |particulas|);
      MoverDepredadores(azar, cs, ms, m.jornadas);
      VivasPresentes(particulas, ms);
    }

    /** What a round starts from: two rosters of distinct agents, no agent in both, each in its own snapshot. */
    lemma Dispuestas()
      requires Valid()
      ensures Distintas(particulas) && Distintas(depredadores)
      ensures Ajenas(particulas, depredadores) && Ajenas(depredadores, particulas)
      ensures Presentes(particulas, Marchantes(particulas)) && Lleva(particulas, Dias(Marchantes(particulas)))
      ensures Presentes(depredadores, Marchantes(depredadores)) && Lleva(depredadores, Dias(Marchantes(depredadores)))
    {
      IdsDistintas(particulas, contadorId);
      IdsDistintas(depredadores, contadorId);
      forall i, j | 0 <= i < |particulas| && 0 <= j < |depredadores| ensures particulas[i] != depredadores[j] {
        assert Integrante(particulas[i], entorno, false);
        assert Integrante(depredadores[j], entorno, true);
      }
    }

    /** The particles' movement loop of a round, as the marchers `ms`; the predators, as `cs`, stay where they are. */
    method MoverParticulas(azar: Azar, ghost ms: seq<Marchante>, ghost cs: seq<Marchante>)
      requires Valid() && Presentes(particulas, ms) && Lleva(particulas, Dias(ms))
      requires Presentes(depredadores, cs) && Lleva(depredadores, Dias(cs))
      modifies particulas`posicionActual, particulas`comidaConsumida, particulas`camino, particulas`pasosRealizados
      modifies particulas`enCasa
      modifies entorno`posicionesComida, entorno`comidaActual, entorno`particulasEnPosicion, azar`usados
      ensures Valid()
      ensures var m := Marchar(entorno.ancho, entorno.alto, ms, old(entorno.Estado()), azar.fuente, old(azar.usados),
                               |particulas|);
              Lleva(particulas, m.jornadas) && entorno.Estado() == m.despensa && azar.usados == m.usados
      ensures Presentes(particulas, ms) && Presentes(depredadores, cs) && Lleva(depredadores, Dias(cs))
    {
      Dispuestas();
      PoblacionCaminan(depredadores, entorno, true, Dias(cs));
      MoverTodas(particulas, azar, ms, false, depredadores, cs, Dias(cs));
      PoblacionCaminan(depredadores, entorno, true, Dias(cs));
    }

    /** The predators' movement loop of a round, as the marchers `cs`; the particles stay in the day states `js`. */
    method MoverDepredadores(azar: Azar, ghost cs: seq<Marchante>, ghost ms: seq<Marchante>, ghost js: seq<Jornada>)
      requires Valid() && Presentes(depredadores, cs) && Lleva(depredadores, Dias(cs))
      requires Presentes(particulas, ms) && Lleva(particulas, js)
      modifies depredadores`posicionActual, depredadores`comidaConsumida, depredadores`camino
      modifies depredadores`pasosRealizados, depredadores`enCasa
      modifies entorno`posicionesComida, entorno`comidaActual, entorno`particulasEnPosicion, azar`usados
      ensures Valid()
      ensures var n := Marchar(entorno.ancho, entorno.alto, cs, old(entorno.Estado()), azar.fuente, old(azar.usados),
                               |depredadores|);
              Lleva(depredadores, n.jornadas) && entorno.Estado() == n.despensa && azar.usados == n.usados
      ensures Presentes(particulas, ms) && Lleva(particulas, js)
    {
      Dispuestas();
      PoblacionCaminan(particulas, entorno, false, js);
      MoverTodas(depredadores, azar, cs, true, particulas, ms, js);
      PoblacionCaminan(particulas, entorno, false, js);
    }
  }
}
