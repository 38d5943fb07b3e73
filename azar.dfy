/**
 * The shared pseudo-random source, as an oracle.
 *
 * A seeded generator answers its draws in a fixed order. `fuente(i, n)` is the
 * answer to the i-th draw when a value in `[0, n)` is asked for, and `usados`
 * counts the draws made so far. Every sequence of answers is reachable by some
 * `fuente`, so nothing about the real generator is assumed.
 *
 * Two outcomes decided by code that is not part of this model (whether a
 * predator bite kills, and which mutation a child inherits) are kept as
 * separate abstract streams with their own cursors, so that they do not shift
 * the movement and food draws.
 */
module Aleatorio {
  import opened Tipos

  /** The answers of a generator: the i-th draw below `n` lies below `n`. */
  type Fuente = f: (nat, nat) -> nat | forall i, n :: 0 < n ==> f(i, n) < n
    witness (i: nat, n: nat) => 0

  class Azar {
    const fuente: Fuente
    var usados: nat
    const fatal: nat -> bool
    var mordidas: nat
    const herencia: nat -> Mutacion
    var herencias: nat

    constructor (fuente: Fuente, fatal: nat -> bool, herencia: nat -> Mutacion)
      ensures this.fuente == fuente && this.fatal == fatal && this.herencia == herencia
      ensures usados == 0 && mordidas == 0 && herencias == 0
    {
      this.fuente := fuente;
      this.fatal := fatal;
      this.herencia := herencia;
      usados, mordidas, herencias := 0, 0, 0;
    }

    /** The next draw in `[0, n)`. */
    method Elegir(n: nat) returns (r: nat)
      requires n > 0
      modifies this`usados
      ensures r < n && r == fuente(old(usados), n)
      ensures usados == old(usados) + 1
    {
      r := fuente(usados, n);
      usados := usados + 1;
    }

    /** Consumes the next `k` draws, as a library call that draws `k` times does. */
    method Avanzar(k: nat)
      modifies this`usados
      ensures usados == old(usados) + k
    {
      usados := usados + k;
    }

    /** Whether the next bite is fatal. */
    method Mordida() returns (f: bool)
      modifies this`mordidas
      ensures f == fatal(old(mordidas)) && mordidas == old(mordidas) + 1
    {
      f := fatal(mordidas);
      mordidas := mordidas + 1;
    }

    /** The mutation of the next child. */
    method Herencia() returns (m: Mutacion)
      modifies this`herencias
      ensures m == herencia(old(herencias)) && herencias == old(herencias) + 1
    {
      m := herencia(herencias);
      herencias := herencias + 1;
    }
  }
}
