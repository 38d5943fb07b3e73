/** Values shared by the grid, the agents and the population controller. */
module Tipos {

  /** A grid cell `(x, y)`. */
  type Celda = (int, int)

  /** The mutation tag an agent carries for its whole life. */
  datatype Mutacion = Ninguna | Velocidad | Prioridad

  datatype Option<T> = None | Some(value: T)

  /** A food percentage written as the rational `num / den`. */
  datatype Porcentaje = Porcentaje(num: int, den: int)

  /** A sequence in which no value occurs twice. */
  predicate SinRepetidos<T(==)>(s: seq<T>) {
    forall i, j :: 0 <= i < j < |s| ==> s[i] != s[j]
  }

  /** The values a sequence holds. */
  function Elementos<T>(s: seq<T>): set<T> {
    set x | x in s
  }

  function Min(a: int, b: int): int { if a <= b then a else b }

  function Max(a: int, b: int): int { if a >= b then a else b }

  /** Python's `int()` of the rational `a / d`: the quotient truncated toward zero. */
  function Truncar(a: int, d: int): int
    requires d > 0
  {
    if a >= 0 then a / d else -((-a) / d)
  }

  /** Manhattan distance between two cells. */
  function Distancia(a: Celda, b: Celda): nat {
    (if a.0 >= b.0 then a.0 - b.0 else b.0 - a.0) + (if a.1 >= b.1 then a.1 - b.1 else b.1 - a.1)
  }

  /** A sequence without repetitions has as many distinct elements as entries. */
  lemma {:induction false} CardinalSinRepetidos<T>(s: seq<T>)
    requires SinRepetidos(s)
    ensures |Elementos(s)| == |s|
  {
    if s != [] {
      var t := s[..|s| - 1];
      var u := s[|s| - 1];
      assert SinRepetidos(t);
      CardinalSinRepetidos(t);
      assert Elementos(s) == Elementos(t) + {u};
      assert u !in Elementos(t);
    }
  }
}
