/**
 * One agent (`Particula`): its home cell, its walk through the day, the food
 * it has eaten and whether it is alive and at home.
 */
module Particulas {
  import opened Tipos
  import opened Aleatorio
  import opened Entornos

  /** The four unit moves, in the order `random.choice` sees them: up, down, left, right. */
  const DIRECCIONES: seq<(int, int)> := [(0, -1), (0, 1), (-1, 0), (1, 0)]

  /** How many directions a step tries before giving up. */
  const MAX_INTENTOS: nat := 100

  /** The cell one move `d` away from `c`. */
  function Desplazar(c: Celda, d: (int, int)): Celda {
    (c.0 + d.0, c.1 + d.1)
  }

  /** The direction drawn at attempt `k` of a step whose first draw is number `u`. */
  function Direccion(fuente: Fuente, u: nat, k: nat): (d: (int, int))
    ensures d in DIRECCIONES
  {
    DIRECCIONES[fuente(u + k, 4)]
  }

  /** Attempt `k` of a step uses draw `u + k`. */
  lemma DireccionElegida(fuente: Fuente, u: nat, k: nat, i: nat)
    requires i == fuente(u + k, 4)
    ensures Direccion(fuente, u, k) == DIRECCIONES[i]
  {
  }

  /**
   * The retry loop of a step, from attempt `t` on: the first attempt whose
   * drawn direction stays on the grid, with the cell it reaches, or `None`
   * when every remaining attempt would leave the grid.
   */
  function Busqueda(ancho: int, alto: int, pos: Celda, fuente: Fuente, u: nat, t: nat): Option<(nat, Celda)>
    requires t <= MAX_INTENTOS
    decreases MAX_INTENTOS - t
  {
    if t == MAX_INTENTOS then None
    else
      var c := Desplazar(pos, Direccion(fuente, u, t));
      if DentroDe(ancho, alto, c) then Some((t, c)) else Busqueda(ancho, alto, pos, fuente, u, t + 1)
  }

  /**
   * What the search finds is an attempt from `t` on whose drawn direction
   * leads to a cell on the grid one unit away.
   */
  lemma {:induction false} BusquedaHallada(ancho: int, alto: int, pos: Celda, fuente: Fuente, u: nat, t: nat)
    requires t <= MAX_INTENTOS
    ensures var r := Busqueda(ancho, alto, pos, fuente, u, t);
            r.Some? ==> t <= r.value.0 < MAX_INTENTOS && r.value.1 == Desplazar(pos, Direccion(fuente, u, r.value.0))
                        && DentroDe(ancho, alto, r.value.1) && Distancia(pos, r.value.1) == 1
    decreases MAX_INTENTOS - t
  {
    if t < MAX_INTENTOS && !DentroDe(ancho, alto, Desplazar(pos, Direccion(fuente, u, t))) {
      BusquedaHallada(ancho, alto, pos, fuente, u, t + 1);
    }
  }

  /** Whether attempt `k` of a step from `pos` would leave the grid. */
  predicate Invalido(ancho: int, alto: int, pos: Celda, fuente: Fuente, u: nat, k: nat) {
    !DentroDe(ancho, alto, Desplazar(pos, Direccion(fuente, u, k)))
  }

  /** The attempt found is the first valid one: every attempt before it would leave the grid. */
  lemma {:induction false} BusquedaPrimera(ancho: int, alto: int, pos: Celda, fuente: Fuente, u: nat, t: nat)
    requires t <= MAX_INTENTOS
    ensures var r := Busqueda(ancho, alto, pos, fuente, u, t);
            r.Some? ==> forall k :: t <= k < r.value.0 ==> Invalido(ancho, alto, pos, fuente, u, k)
    decreases MAX_INTENTOS - t
  {
    if t < MAX_INTENTOS && Invalido(ancho, alto, pos, fuente, u, t) {
      BusquedaPrimera(ancho, alto, pos, fuente, u, t + 1);
    }
  }

  /** An attempt that stays on the grid ends the search there. */
  lemma BusquedaAqui(ancho: int, alto: int, pos: Celda, fuente: Fuente, u: nat, t: nat, c: Celda)
    requires t < MAX_INTENTOS && c == Desplazar(pos, Direccion(fuente, u, t)) && DentroDe(ancho, alto, c)
    ensures Busqueda(ancho, alto, pos, fuente, u, t) == Some((t, c))
  {
  }

  /** An attempt that would leave the grid passes the search on to the next one. */
  lemma BusquedaSigue(ancho: int, alto: int, pos: Celda, fuente: Fuente, u: nat, t: nat)
    requires t < MAX_INTENTOS && Invalido(ancho, alto, pos, fuente, u, t)
    ensures Busqueda(ancho, alto, pos, fuente, u, t) == Busqueda(ancho, alto, pos, fuente, u, t + 1)
  {
  }

  /** Attempts known to leave the grid can be skipped: the search gives the same answer from the first one after them. */
  lemma {:induction false} BusquedaSalta(ancho: int, alto: int, pos: Celda, fuente: Fuente, u: nat, t0: nat, t: nat)
    requires t0 <= t <= MAX_INTENTOS
    requires forall k :: t0 <= k < t ==> Invalido(ancho, alto, pos, fuente, u, k)
    ensures Busqueda(ancho, alto, pos, fuente, u, t0) == Busqueda(ancho, alto, pos, fuente, u, t)
    decreases t - t0
  {
    if t0 < t {
      BusquedaSigue(ancho, alto, pos, fuente, u, t0);
      BusquedaSalta(ancho, alto, pos, fuente, u, t0 + 1, t);
    }
  }

  /** The search finds nothing exactly when every remaining attempt would leave the grid. */
  lemma {:induction false} BusquedaFalla(ancho: int, alto: int, pos: Celda, fuente: Fuente, u: nat, t: nat)
    requires t <= MAX_INTENTOS
    ensures Busqueda(ancho, alto, pos, fuente, u, t).None?
            <==> forall k :: t <= k < MAX_INTENTOS ==> Invalido(ancho, alto, pos, fuente, u, k)
    decreases MAX_INTENTOS - t
  {
    if t < MAX_INTENTOS {
      BusquedaFalla(ancho, alto, pos, fuente, u, t + 1);
      if Invalido(ancho, alto, pos, fuente, u, t) {
        assert Busqueda(ancho, alto, pos, fuente, u, t) == Busqueda(ancho, alto, pos, fuente, u, t + 1);
      } else {
        assert Busqueda(ancho, alto, pos, fuente, u, t).Some?;
      }
    }
  }

  /** What a particle carries through one day. */
  datatype Jornada = Jornada(posicion: Celda, comida: nat, camino: seq<Celda>, pasos: nat, enCasa: bool)

  /** The state of a particle at the start of every day: at home, nothing eaten, no steps. */
  function Amanecer(casa: Celda): Jornada {
    Jornada(casa, 0, [casa], 0, true)
  }

  /**
   * The path starts at home, ends where the particle stands, is one entry
   * longer than the step count and moves one cell at a time.
   */
  predicate CaminoValido(casa: Celda, j: Jornada) {
    |j.camino| == j.pasos + 1
    && j.camino[0] == casa
    && j.camino[|j.camino| - 1] == j.posicion
    && forall i :: 0 <= i < |j.camino| - 1 ==> Distancia(j.camino[i], j.camino[i + 1]) == 1
  }

  /** A fresh day satisfies the path invariant. */
  lemma AmanecerValido(casa: Celda)
    ensures CaminoValido(casa, Amanecer(casa))
    ensures Amanecer(casa).posicion == casa && Amanecer(casa).camino == [casa]
  {
  }

  /** One unit move that extends the path keeps the path invariant. */
  lemma {:induction false} AvanzarValido(casa: Celda, j: Jornada, c: Celda, comida: nat, enCasa: bool)
    requires CaminoValido(casa, j) && Distancia(j.posicion, c) == 1
    ensures CaminoValido(casa, Jornada(c, comida, j.camino + [c], j.pasos + 1, enCasa))
  {
    var k := Jornada(c, comida, j.camino + [c], j.pasos + 1, enCasa);
    forall i | 0 <= i < |k.camino| - 1 ensures Distancia(k.camino[i], k.camino[i + 1]) == 1 {
      if i < |j.camino| - 1 {
        assert k.camino[i] == j.camino[i] && k.camino[i + 1] == j.camino[i + 1];
      } else {
        assert k.camino[i] == j.posicion && k.camino[i + 1] == c;
      }
    }
  }

  /** What one step leaves behind: whether it succeeded, the day state, the food and the draws used. */
  datatype Efecto = Efecto(exito: bool, jornada: Jornada, despensa: Despensa, usados: nat)

  /**
   * Arriving at `c`: the cell joins the path, the step count grows, the home
   * flag follows the border, and the particle tries to eat there.
   */
  function Llegar(ancho: int, alto: int, j: Jornada, d: Despensa, o: Ocupante, c: Celda): (Jornada, Despensa) {
    var comida := Consumir(d, c, o);
    (Jornada(c, j.comida + (if comida.0 then 1 else 0), j.camino + [c], j.pasos + 1, EnBorde(ancho, alto, c)), comida.1)
  }

  /**
   * One step of a particle that is `viva`, in state `j`, as occupant `o`, over
   * food `d`, whose first draw is number `u`.
   */
  function Paso(ancho: int, alto: int, viva: bool, j: Jornada, d: Despensa, o: Ocupante, fuente: Fuente, u: nat): Efecto {
    if !viva then Efecto(false, j, d, u)
    else if j.enCasa && j.comida >= 1 then Efecto(true, j, d, u)
    else match Busqueda(ancho, alto, j.posicion, fuente, u, 0)
      case None => Efecto(false, j, d, u + MAX_INTENTOS)
      case Some(hallado) =>
        var llegada := Llegar(ancho, alto, j, d, o, hallado.1);
        Efecto(true, llegada.0, llegada.1, u + hallado.0 + 1)
  }

  /** A step whose search finds attempt `t`, reaching `c`, arrives at `c` having used `t + 1` draws. */
  lemma PasoHallado(ancho: int, alto: int, viva: bool, j: Jornada, d: Despensa, o: Ocupante, fuente: Fuente, u: nat,
                    t: nat, c: Celda)
    requires viva && !(j.enCasa && j.comida >= 1)
    requires Busqueda(ancho, alto, j.posicion, fuente, u, 0) == Some((t, c))
    ensures var llegada := Llegar(ancho, alto, j, d, o, c);
            Paso(ancho, alto, viva, j, d, o, fuente, u) == Efecto(true, llegada.0, llegada.1, u + t + 1)
  {
  }

  /** A step whose search finds nothing stays put having used every draw. */
  lemma PasoAgotado(ancho: int, alto: int, viva: bool, j: Jornada, d: Despensa, o: Ocupante, fuente: Fuente, u: nat)
    requires viva && !(j.enCasa && j.comida >= 1)
    requires Busqueda(ancho, alto, j.posicion, fuente, u, 0).None?
    ensures Paso(ancho, alto, viva, j, d, o, fuente, u) == Efecto(false, j, d, u + MAX_INTENTOS)
  {
  }

  /** A dead particle does nothing and fails; a fed particle at home rests and succeeds. */
  lemma PasoQuieto(ancho: int, alto: int, viva: bool, j: Jornada, d: Despensa, o: Ocupante, fuente: Fuente, u: nat)
    requires !viva || (j.enCasa && j.comida >= 1)
    ensures var e := Paso(ancho, alto, viva, j, d, o, fuente, u);
            e.exito == viva && e.jornada == j && e.despensa == d && e.usados == u
  {
  }

  /**
   * A step that moves goes to a cell on the grid one unit away, appends it to
   * the path, counts one more step, sets the home flag from the border and
   * eats at most once; a step that does not move changes nothing but the draws.
   */
  lemma PasoMovimiento(ancho: int, alto: int, viva: bool, j: Jornada, d: Despensa, o: Ocupante, fuente: Fuente, u: nat)
    ensures var e := Paso(ancho, alto, viva, j, d, o, fuente, u);
            var c := e.jornada.posicion;
            e.jornada == j || (DentroDe(ancho, alto, c) && Distancia(j.posicion, c) == 1
                               && e.jornada.camino == j.camino + [c] && e.jornada.pasos == j.pasos + 1
                               && e.jornada.enCasa == EnBorde(ancho, alto, c)
                               && j.comida <= e.jornada.comida <= j.comida + 1)
    ensures var e := Paso(ancho, alto, viva, j, d, o, fuente, u);
            !e.exito ==> e.jornada == j && e.despensa == d
    ensures u <= Paso(ancho, alto, viva, j, d, o, fuente, u).usados <= u + MAX_INTENTOS
  {
    if viva && !(j.enCasa && j.comida >= 1) {
      BusquedaHallada(ancho, alto, j.posicion, fuente, u, 0);
    }
  }

  /**
   * A live particle that is not resting fails exactly when all `MAX_INTENTOS`
   * drawn directions would leave the grid, and then it has used every draw.
   */
  lemma PasoFallido(ancho: int, alto: int, viva: bool, j: Jornada, d: Despensa, o: Ocupante, fuente: Fuente, u: nat)
    requires viva && !(j.enCasa && j.comida >= 1)
    ensures var e := Paso(ancho, alto, viva, j, d, o, fuente, u);
            !e.exito <==> forall k :: 0 <= k < MAX_INTENTOS ==> Invalido(ancho, alto, j.posicion, fuente, u, k)
    ensures var e := Paso(ancho, alto, viva, j, d, o, fuente, u);
            !e.exito ==> e.usados == u + MAX_INTENTOS
  {
    BusquedaFalla(ancho, alto, j.posicion, fuente, u, 0);
  }

  /** A step keeps the path invariant and the grid's food bookkeeping. */
  lemma PasoConserva(ancho: int, alto: int, total: int, casa: Celda, viva: bool, j: Jornada, d: Despensa,
                     o: Ocupante, fuente: Fuente, u: nat)
    requires CaminoValido(casa, j) && Coherente(ancho, alto, total, d)
    ensures CaminoValido(casa, Paso(ancho, alto, viva, j, d, o, fuente, u).jornada)
    ensures Coherente(ancho, alto, total, Paso(ancho, alto, viva, j, d, o, fuente, u).despensa)
  {
    if viva && !(j.enCasa && j.comida >= 1) {
      var r := Busqueda(ancho, alto, j.posicion, fuente, u, 0);
      BusquedaHallada(ancho, alto, j.posicion, fuente, u, 0);
      if r.Some? {
        var c := r.value.1;
        var llegada := Llegar(ancho, alto, j, d, o, c);
        AvanzarValido(casa, j, c, llegada.0.comida, llegada.0.enCasa);
        ConsumirConserva(ancho, alto, total, d, c, o);
      }
    }
  }

  /** The end-of-day verdict for one particle. */
  datatype Resultado = Resultado(sobrevive: bool, reproduce: bool)

  /**
   * `evaluar_fin_dia`: a particle at home survives, whether or not it ate (one
   * that did not eat starts over); one at home with two meals also reproduces;
   * one away from home dies.
   */
  function Evaluacion(comida: nat, enCasa: bool): (r: Resultado)
    ensures r.sobrevive <==> enCasa
    ensures r.reproduce <==> enCasa && comida >= 2
    ensures r.reproduce ==> r.sobrevive
  {
    if comida >= 1 && enCasa then
      Resultado(true, comida >= 2)
    else if comida == 0 && enCasa then
      Resultado(true, false)
    else
      Resultado(false, false)
  }

  /** A snapshot of a particle, as `obtener_info` reports it (without its colour). */
  datatype Info = Info(id: int, generacion: int, posicion: Celda, comidaConsumida: nat,
                       pasosRealizados: nat, viva: bool, enCasa: bool)

  class Particula {
    const id: int
    const entorno: Entorno
    const generacion: int
    const posInicial: Celda
    const mutacion: Mutacion
    const esDepredador: bool
    var posicionActual: Celda
    var comidaConsumida: nat
    var camino: seq<Celda>
    var pasosRealizados: nat
    var viva: bool
    var enCasa: bool

    /** The day's state as one value. */
    function Hoy(): Jornada
      reads this`posicionActual, this`comidaConsumida, this`camino, this`pasosRealizados, this`enCasa
    {
      Jornada(posicionActual, comidaConsumida, camino, pasosRealizados, enCasa)
    }

    ghost predicate Valid()
      reads this`posicionActual, this`comidaConsumida, this`camino, this`pasosRealizados, this`enCasa
    {
      CaminoValido(posInicial, Hoy())
    }

    /** How this particle appears in the grid's occupant registry. */
    function ComoOcupante(): Ocupante {
      Ocupante(id, mutacion)
    }

    /**
     * A live particle at home with the day's state fresh; without a given home
     * it draws one on the border.
     */
    constructor (id: int, entorno: Entorno, posInicial: Option<Celda>, generacion: int,
                 mutacion: Mutacion, esDepredador: bool, azar: Azar)
      requires posInicial.None? ==> entorno.ancho >= 1 && entorno.alto >= 1
      modifies azar`usados
      ensures Valid() && viva && Hoy() == Amanecer(this.posInicial)
      ensures this.id == id && this.entorno == entorno && this.generacion == generacion
      ensures this.mutacion == mutacion && this.esDepredador == esDepredador
      ensures posInicial.Some? ==> this.posInicial == posInicial.value && azar.usados == old(azar.usados)
      ensures posInicial.None? ==> azar.usados == old(azar.usados) + 2
      ensures posInicial.None? ==> DentroDe(entorno.ancho, entorno.alto, this.posInicial)
                                   && EnBorde(entorno.ancho, entorno.alto, this.posInicial)
    {
      var casa: Celda;
      if posInicial.None? {
        casa := entorno.ObtenerPosicionInicialAleatoria(azar);
      } else {
        casa := posInicial.value;
      }
      this.id := id;
      this.entorno := entorno;
      this.generacion := generacion;
      this.mutacion := mutacion;
      this.esDepredador := esDepredador;
      this.posInicial := casa;
      posicionActual := casa;
      comidaConsumida := 0;
      camino := [casa];
      pasosRealizados := 0;
      viva := true;
      enCasa := true;
    }

    /** Moving to `c` and eating there if there is food. */
    method Moverse(c: Celda)
      requires Valid() && entorno.Valid() && Distancia(posicionActual, c) == 1
      modifies this`posicionActual, this`camino, this`pasosRealizados, this`enCasa, this`comidaConsumida
      modifies entorno`posicionesComida, entorno`comidaActual, entorno`particulasEnPosicion
      ensures Valid() && entorno.Valid()
      ensures (Hoy(), entorno.Estado()) == Llegar(entorno.ancho, entorno.alto, old(Hoy()), old(entorno.Estado()), ComoOcupante(), c)
    {
      ghost var viejo := Hoy();
      posicionActual := c;
      camino := camino + [posicionActual];
      pasosRealizados := pasosRealizados + 1;
      if entorno.EsCasa(c.0, c.1) {
        enCasa := true;
      } else {
        enCasa := false;
      }
      if entorno.HayComida(c.0, c.1) {
        var comio := entorno.ConsumirComida(c.0, c.1, ComoOcupante());
        if comio {
          comidaConsumida := comidaConsumida + 1;
        }
      } else {
        ConsumirConserva(entorno.ancho, entorno.alto, entorno.comidaTotal, entorno.Estado(), c, ComoOcupante());
      }
      AvanzarValido(posInicial, viejo, posicionActual, comidaConsumida, enCasa);
    }

    /**
     * `realizar_paso`: a dead particle does nothing; one at home that has eaten
     * rests; otherwise up to `MAX_INTENTOS` directions are drawn until one stays
     * on the grid, the particle moves there and eats if there is food.
     */
    method RealizarPaso(azar: Azar) returns (exito: bool)
      requires Valid() && entorno.Valid()
      modifies this`posicionActual, this`camino, this`pasosRealizados, this`enCasa, this`comidaConsumida
      modifies entorno`posicionesComida, entorno`comidaActual, entorno`particulasEnPosicion, azar`usados
      ensures Valid() && entorno.Valid()
      ensures var e := Paso(entorno.ancho, entorno.alto, viva, old(Hoy()), old(entorno.Estado()), ComoOcupante(),
                            azar.fuente, old(azar.usados));
              exito == e.exito && Hoy() == e.jornada && entorno.Estado() == e.despensa && azar.usados == e.usados
    {
      if !viva {
        return false;
      }
      if enCasa && comidaConsumida >= 1 {
        return true;
      }
      ghost var u0, pos0 := azar.usados, posicionActual;
      ghost var ancho, alto, f := entorno.ancho, entorno.alto, azar.fuente;
      var intento := 0;
      while intento < MAX_INTENTOS
        invariant 0 <= intento <= MAX_INTENTOS
        invariant azar.usados == u0 + intento
        invariant forall k :: 0 <= k < intento ==> Invalido(ancho, alto, pos0, f, u0, k)
        invariant Hoy() == old(Hoy()) && entorno.Estado() == old(entorno.Estado())
      {
        var k := azar.Elegir(4);
        var d := DIRECCIONES[k];
        var nuevaX := posicionActual.0 + d.0;
        var nuevaY := posicionActual.1 + d.1;
        DireccionElegida(f, u0, intento, k);
        if entorno.EsPosicionValida(nuevaX, nuevaY) {
          assert (nuevaX, nuevaY) == Desplazar(pos0, Direccion(f, u0, intento));
          BusquedaAqui(ancho, alto, pos0, f, u0, intento, (nuevaX, nuevaY));
          BusquedaSalta(ancho, alto, pos0, f, u0, 0, intento);
          PasoHallado(ancho, alto, viva, old(Hoy()), old(entorno.Estado()), ComoOcupante(), f, u0, intento, (nuevaX, nuevaY));
          Moverse((nuevaX, nuevaY));
          return true;
        }
        intento := intento + 1;
      }
      BusquedaSalta(ancho, alto, pos0, f, u0, 0, MAX_INTENTOS);
      PasoAgotado(ancho, alto, viva, old(Hoy()), old(entorno.Estado()), ComoOcupante(), f, u0);
      return false;
    }

    /** `evaluar_fin_dia` for this particle. */
    function EvaluarFinDia(): (r: Resultado)
      reads this
      ensures r.sobrevive <==> enCasa
      ensures r.reproduce <==> enCasa && comidaConsumida >= 2
    {
      Evaluacion(comidaConsumida, enCasa)
    }

    /** `preparar_nuevo_dia`: back home with the day's state fresh, whatever it was. */
    method PrepararNuevoDia()
      modifies this`posicionActual, this`camino, this`pasosRealizados, this`enCasa, this`comidaConsumida
      ensures Valid() && Hoy() == Amanecer(posInicial)
    {
      comidaConsumida := 0;
      camino := [posInicial];
      pasosRealizados := 0;
      posicionActual := posInicial;
      enCasa := true;
    }

    /** `crear_hijo`: a live non-predator child at the same home, one generation on. */
    method CrearHijo(nuevoId: int, mutacionHijo: Mutacion, azar: Azar) returns (hijo: Particula)
      modifies azar`usados
      ensures fresh(hijo) && hijo.Valid() && hijo.viva && hijo.Hoy() == Amanecer(posInicial)
      ensures hijo.id == nuevoId && hijo.entorno == entorno && hijo.posInicial == posInicial
      ensures hijo.generacion == generacion + 1 && hijo.mutacion == mutacionHijo && !hijo.esDepredador
      ensures azar.usados == old(azar.usados)
    {
      hijo := new Particula(nuevoId, entorno, Some(posInicial), generacion + 1, mutacionHijo, false, azar);
    }

    /** `obtener_info`: the particle's id, generation and day state. */
    function ObtenerInfo(): (r: Info)
      reads this
      requires Valid()
      ensures r.pasosRealizados == |camino| - 1 && r.posicion == camino[|camino| - 1]
      ensures r.id == id && r.viva == viva && r.enCasa == enCasa && r.comidaConsumida == comidaConsumida
    {
      Info(id, generacion, posicionActual, comidaConsumida, pasosRealizados, viva, enCasa)
    }

    /** A predator's bite: it reports whether the bite was fatal, and a fatal one kills. */
    method RecibirMordida(azar: Azar) returns (fatal: bool)
      modifies this`viva, azar`mordidas
      ensures fatal == azar.fatal(old(azar.mordidas)) && azar.mordidas == old(azar.mordidas) + 1
      ensures viva == (old(viva) && !fatal)
    {
      fatal := azar.Mordida();
      if fatal {
        viva := false;
      }
    }
  }
}
