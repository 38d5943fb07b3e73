/**
 * A round of steps: every agent of a roster takes one step, in roster order,
 * over the shared food registry and the shared draws.
 */
module Marchas {
  import opened Tipos
  import opened Aleatorio
  import opened Entornos
  import opened Particulas

  /** An agent of the simulation on grid `e`: a predator or not, with a well-formed day. */
  ghost predicate Integrante(p: Particula, e: Entorno, depredador: bool)
    reads p`posicionActual, p`comidaConsumida, p`camino, p`pasosRealizados, p`enCasa
  {
    p.entorno == e && p.esDepredador == depredador && p.Valid()
  }

  /** All of `ps` are agents on grid `e`, predators or not. */
  ghost predicate Poblacion(ps: seq<Particula>, e: Entorno, depredador: bool)
    reads ps`posicionActual, ps`comidaConsumida, ps`camino, ps`pasosRealizados, ps`enCasa
  {
    forall p :: p in ps ==> Integrante(p, e, depredador)
  }

  lemma PoblacionAgregar(ps: seq<Particula>, e: Entorno, depredador: bool, p: Particula)
    requires Poblacion(ps, e, depredador) && Integrante(p, e, depredador)
    ensures Poblacion(ps + [p], e, depredador)
  {
  }

  // ---------------------------------------------------------------------------
  // A round of steps
  // ---------------------------------------------------------------------------

  /** An agent as a round of steps sees it: alive or not, its day state, and how the registry names it. */
  datatype Marchante = Marchante(viva: bool, jornada: Jornada, ocupante: Ocupante)

  /** What a round of steps leaves behind: the agents' new day states, the food and the draws used. */
  datatype Marcha = Marcha(jornadas: seq<Jornada>, despensa: Despensa, usados: nat)

  function Dias(ms: seq<Marchante>): seq<Jornada> {
    seq(|ms|, k requires 0 <= k < |ms| => ms[k].jornada)
  }

  /**
   * The first `k` agents of `ms` each take one step, in roster order, over the
   * food `d`, from draw `u` on; the others keep their day state.
   */
  function Marchar(ancho: int, alto: int, ms: seq<Marchante>, d: Despensa, fuente: Fuente, u: nat, k: nat): (m: Marcha)
    requires k <= |ms|
    ensures |m.jornadas| == |ms|
    decreases k
  {
    if k == 0 then Marcha(Dias(ms), d, u)
    else Avance(ancho, alto, ms[k - 1], Marchar(ancho, alto, ms, d, fuente, u, k - 1), k - 1, fuente)
  }

  /** Agent `a`, number `k` of the roster, takes its step after the march `m`. */
  function Avance(ancho: int, alto: int, a: Marchante, m: Marcha, k: nat, fuente: Fuente): (r: Marcha)
    requires k < |m.jornadas|
    ensures |r.jornadas| == |m.jornadas|
  {
    var e := Paso(ancho, alto, a.viva, m.jornadas[k], m.despensa, a.ocupante, fuente, m.usados);
    Marcha(m.jornadas[k := e.jornada], e.despensa, e.usados)
  }

  /**
   * Agents not yet stepped, dead agents, and agents already home with
   * something eaten keep their day state; the draws only move forward.
   */
  lemma {:induction false} MarcharQuietos(ancho: int, alto: int, ms: seq<Marchante>, d: Despensa, fuente: Fuente,
                                          u: nat, k: nat)
    requires k <= |ms|
    ensures var m := Marchar(ancho, alto, ms, d, fuente, u, k);
            u <= m.usados
            && forall j :: 0 <= j < |ms| && (k <= j || !ms[j].viva || (ms[j].jornada.enCasa && ms[j].jornada.comida >= 1)) ==>
                 m.jornadas[j] == ms[j].jornada
  {
    if k > 0 {
      MarcharQuietos(ancho, alto, ms, d, fuente, u, k - 1);
      var m := Marchar(ancho, alto, ms, d, fuente, u, k - 1);
      var a := ms[k - 1];
      assert m.jornadas[k - 1] == a.jornada;
      PasoMovimiento(ancho, alto, a.viva, a.jornada, m.despensa, a.ocupante, fuente, m.usados);
      if !a.viva || (a.jornada.enCasa && a.jornada.comida >= 1) {
        PasoQuieto(ancho, alto, a.viva, a.jornada, m.despensa, a.ocupante, fuente, m.usados);
      }
    }
  }

  /** Every day state `js[k]` is a valid path from home `casas[k]`. */
  ghost predicate Caminan(casas: seq<Celda>, js: seq<Jornada>) {
    |casas| == |js| && forall k :: 0 <= k < |js| ==> CaminoValido(casas[k], js[k])
  }

  /** A round keeps every path valid for its home and the food registry coherent. */
  lemma {:induction false} MarcharConserva(ancho: int, alto: int, total: int, casas: seq<Celda>, ms: seq<Marchante>,
                                           d: Despensa, fuente: Fuente, u: nat, k: nat)
    requires k <= |ms| && Caminan(casas, Dias(ms)) && Coherente(ancho, alto, total, d)
    ensures var m := Marchar(ancho, alto, ms, d, fuente, u, k);
            Caminan(casas, m.jornadas) && Coherente(ancho, alto, total, m.despensa)
  {
    if k > 0 {
      MarcharConserva(ancho, alto, total, casas, ms, d, fuente, u, k - 1);
      var m := Marchar(ancho, alto, ms, d, fuente, u, k - 1);
      var i := k - 1;
      assert CaminoValido(casas[i], m.jornadas[i]);
      PasoConserva(ancho, alto, total, casas[i], ms[i].viva, m.jornadas[i], m.despensa, ms[i].ocupante, fuente, m.usados);
      var t := Marchar(ancho, alto, ms, d, fuente, u, k);
      forall j | 0 <= j < |t.jornadas| ensures CaminoValido(casas[j], t.jornadas[j]) {
        if j != i {
          assert t.jornadas[j] == m.jornadas[j];
        }
      }
    }
  }

  function Marchantes(ps: seq<Particula>): seq<Marchante>
    reads ps
  {
    seq(|ps|, i requires 0 <= i < |ps| reads ps => Marchante(ps[i].viva, ps[i].Hoy(), ps[i].ComoOcupante()))
  }

  /** The agents' alive flags and registry names are those of `ms`. */
  ghost predicate Presentes(ps: seq<Particula>, ms: seq<Marchante>)
    reads ps`viva
  {
    |ps| == |ms| && forall k :: 0 <= k < |ps| ==> ps[k].viva == ms[k].viva && ps[k].ComoOcupante() == ms[k].ocupante
  }

  /** Whether each agent of `ms` is alive. */
  function Vidas(ms: seq<Marchante>): seq<bool> {
    seq(|ms|, k requires 0 <= k < |ms| => ms[k].viva)
  }

  /** The agents are in the day states `js`. */
  ghost predicate Lleva(ps: seq<Particula>, js: seq<Jornada>)
    reads ps`posicionActual, ps`comidaConsumida, ps`camino, ps`pasosRealizados, ps`enCasa
  {
    |ps| == |js| && forall k :: 0 <= k < |ps| ==> ps[k].Hoy() == js[k]
  }

  /** The cells the day states `js` stand on. */
  function Lugares(js: seq<Jornada>): seq<Celda> {
    seq(|js|, k requires 0 <= k < |js| => js[k].posicion)
  }

  /** The homes of the agents, in roster order. */
  function Casas(ps: seq<Particula>): seq<Celda> {
    seq(|ps|, k requires 0 <= k < |ps| => ps[k].posInicial)
  }

  /** Every agent of `ps` lives on grid `e` and is a predator exactly when `depredador` holds. */
  ghost predicate Pertenecen(ps: seq<Particula>, e: Entorno, depredador: bool) {
    forall p :: p in ps ==> p.entorno == e && p.esDepredador == depredador
  }

  /** The agents are in the day states of `m`, and the food and the draws are those `m` leaves. */
  ghost predicate Deja(e: Entorno, ps: seq<Particula>, azar: Azar, m: Marcha)
    reads e, azar`usados, ps`posicionActual, ps`comidaConsumida, ps`camino, ps`pasosRealizados, ps`enCasa
  {
    Lleva(ps, m.jornadas) && e.Estado() == m.despensa && azar.usados == m.usados
  }

  /** A roster of agents on `e` is the paths of its homes together with the grid and the roles. */
  lemma PoblacionCaminan(ps: seq<Particula>, e: Entorno, depredador: bool, js: seq<Jornada>)
    requires Lleva(ps, js)
    ensures Poblacion(ps, e, depredador) <==> Pertenecen(ps, e, depredador) && Caminan(Casas(ps), js)
  {
    if Pertenecen(ps, e, depredador) && Caminan(Casas(ps), js) {
      forall p | p in ps ensures Integrante(p, e, depredador) {
        var k :| 0 <= k < |ps| && ps[k] == p;
        assert CaminoValido(Casas(ps)[k], js[k]);
      }
    }
    if Poblacion(ps, e, depredador) {
      forall k | 0 <= k < |js| ensures CaminoValido(Casas(ps)[k], js[k]) {
        assert Integrante(ps[k], e, depredador);
      }
    }
  }

  /** Every stage of the march of `ms`: `Ruta(...)[k]` is the march of the first `k` agents. */
  function Ruta(ancho: int, alto: int, ms: seq<Marchante>, d: Despensa, fuente: Fuente, u: nat): seq<Marcha> {
    seq(|ms| + 1, k requires 0 <= k <= |ms| => Marchar(ancho, alto, ms, d, fuente, u, k))
  }

  /** Each stage of `ruta` is the step of one more agent of `ms` after the stage before. */
  ghost predicate Encadena(ancho: int, alto: int, ms: seq<Marchante>, fuente: Fuente, ruta: seq<Marcha>) {
    |ruta| == |ms| + 1
    && forall k :: 0 <= k < |ms| ==>
         |ruta[k].jornadas| == |ms| && ruta[k + 1] == Avance(ancho, alto, ms[k], ruta[k], k, fuente)
  }

  /** At every stage of `ruta` the paths are valid for homes `casas` and the food registry is coherent. */
  ghost predicate Sanas(ancho: int, alto: int, total: int, casas: seq<Celda>, ruta: seq<Marcha>) {
    forall k :: 0 <= k < |ruta| ==> Caminan(casas, ruta[k].jornadas) && Coherente(ancho, alto, total, ruta[k].despensa)
  }

  /** Stage `k + 1` of the route is the step of agent `k` after stage `k`. */
  lemma RutaEncadena(ancho: int, alto: int, ms: seq<Marchante>, d: Despensa, fuente: Fuente, u: nat)
    ensures Encadena(ancho, alto, ms, fuente, Ruta(ancho, alto, ms, d, fuente, u))
  {
    var ruta := Ruta(ancho, alto, ms, d, fuente, u);
    forall k | 0 <= k < |ms|
      ensures |ruta[k].jornadas| == |ms| && ruta[k + 1] == Avance(ancho, alto, ms[k], ruta[k], k, fuente)
    {
      assert ruta[k + 1] == Marchar(ancho, alto, ms, d, fuente, u, k + 1);
    }
  }

  /** Every stage of the route keeps the paths valid and the food registry coherent. */
  lemma RutaSana(ancho: int, alto: int, total: int, casas: seq<Celda>, ms: seq<Marchante>, d: Despensa,
                 fuente: Fuente, u: nat)
    requires Caminan(casas, Dias(ms)) && Coherente(ancho, alto, total, d)
    ensures Sanas(ancho, alto, total, casas, Ruta(ancho, alto, ms, d, fuente, u))
  {
    var ruta := Ruta(ancho, alto, ms, d, fuente, u);
    forall k | 0 <= k < |ruta|
      ensures Caminan(casas, ruta[k].jornadas) && Coherente(ancho, alto, total, ruta[k].despensa)
    {
      MarcharConserva(ancho, alto, total, casas, ms, d, fuente, u, k);
    }
  }
}
