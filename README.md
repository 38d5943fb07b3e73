# Particle population day cycle, in Dafny

This project models the day cycle of a grid-based population simulation and
proves properties of it. Particles leave their home on the border of a grid,
walk at random, eat food placed on interior cells and must be home again at
the end of the day. One that is home survives. One that is home and ate
twice also gets a child. Every few days predators appear. They walk the same
grid and bite live particles that share an interior cell with them.

The model follows the three core files of the program:

- `entorno.dfy`, module `Entornos` (the grid, `entorno.py`):
  - the bounds and home tests;
  - food seeding by a draw without replacement over the interior cells;
  - contested food consumption under the priority-mutation rule;
  - the per-cell occupant registry;
  - the random home cell on the border.
- `particula.dfy`, module `Particulas` (one agent, `particula.py`):
  - the bounded-retry random step (`realizar_paso`);
  - the end-of-day verdict;
  - the new-day reset;
  - the child;
  - the info snapshot.
- `simulacion.dfy`, module `Simulaciones` (the controller, `simulacion.py`):
  - the id counter;
  - the initial particles and the predator spawning;
  - the rounds of a day;
  - the predator attacks;
  - the end-of-day fold that rebuilds the roster;
  - the next-day preparation and the run loop.
- `marcha.dfy`, module `Marchas`: a round of steps of a whole roster, as a pure function.
- `azar.dfy`, module `Aleatorio`: the random source.
- `tipos.dfy`, module `Tipos`: shared types.

How the model is built:

- **Objects.** `Entorno`, `Particula`, `Simulacion` and the random source are
  classes whose methods update their fields, as the program's objects do.
- **Specification functions.** Each method is proved against a pure function
  of the old state:
  - `Consumir`, `Registrar` and `ComidaSembrada` for the grid;
  - `Paso` for one step;
  - `Marchar` for a round of steps;
  - `Atacar` for the predator attacks;
  - `Plan` for the end-of-day fold.
- **Lemmas.** The properties the program promises are proved about those functions.

**Randomness** is an oracle:

- `fuente(i, n)` is the i-th draw when a value below `n` is asked for, and a
  cursor counts the draws.
- `random.choice` of a direction, the border side and the offset along it are
  each one draw.
- `random.sample(pool, k)` is `Entornos.Muestra`: `k` draws without
  replacement. It fixes which `k` cells are chosen and that none repeats.
  It abstracts how CPython maps a seed to those cells (its swap-with-the-last
  selection and its rejection sampling on large pools), and the colour draws
  that also advance the real generator. Every property is proved for every
  random source, so none depends on that mapping.
- Two outcomes are decided by code that is not part of this model:
  - whether a bite is fatal (`recibir_mordida`);
  - which mutation a child inherits (`mutacion_hijo`).

  They are separate abstract streams (`fatal`, `herencia`). They have their
  own cursors and do not shift the other draws.

**The three source files are not from one version.**

- `particula.py:98` calls `consumir_comida` with two arguments, while
  `entorno.py:111` takes the particle as a third. The model passes the
  particle, recorded by its id and mutation (`Ocupante`).
- simulacion.py creates particles with a mutation tag, a predator flag and
  `recibir_mordida`, none of which the shown `Particula` has. The model gives
  `Particula` a constant mutation tag (`Ninguna`, `Velocidad` or
  `Prioridad`), a constant predator flag and an abstract bite.
- `simulacion.py:141` passes a `depredadores=` argument that the shown
  `realizar_paso` does not take. The shown step is used for particles and
  predators alike. So in the model a predator eats food it steps on, exactly
  as the shown code does, and it has no separate movement rules.

**Where the system's design description and its code disagree**, the model follows the code:

- Food count: the code truncates (`int(...)`, `entorno.py:48`), it does not round.
- Food registration: `consumir_comida` does not add the particle to the
  cell's registry. It only creates an empty list for the cell.
- Not in the shown code, so not modelled:
  - the survival and reproduction thresholds for `speed` particles;
  - fleeing from predators and the extra step;
  - predators kept off the border;
  - bite counters.

Integers are unbounded, as Python's are. The food percentage is a rational
`num / den`, and Python's `int()` is modelled as truncation toward zero
(`Tipos.Truncar`).

## Model

| member | source | states |
|---|---|---|
| Entornos.Entorno.EsPosicionValida | entorno.py:71-82 | a valid cell, `0 <= x < ancho && 0 <= y < alto`, is a home cell or an interior cell |
| Entornos.Entorno.EsCasa | entorno.py:84-96 | a home cell, on the first or last row or column, is never an interior cell |
| Entornos.Entorno.HayComida | entorno.py:98-109 | on a coherent grid, a cell with food is interior, never a home cell |
| Entornos.Entorno.ObtenerDimensiones | entorno.py:179-186 | for the returned `(ancho, alto)`, a cell is valid iff `0 <= x < ancho && 0 <= y < alto`, and a home cell iff it lies on the first or last row or column |
| Entornos.Interiores | entorno.py:41-45 | the interior list has `max(0, ancho-2) * max(0, alto-2)` cells, no cell twice, and holds exactly the cells with `1 <= x < ancho-1 && 1 <= y < alto-1` |
| Entornos.Columnas | entorno.py:41-45 | the columns from `x0` on list exactly the interior cells with `x >= x0`, with no repeats and the product length |
| Entornos.Columna | entorno.py:44 | one column lists exactly the cells `(x, y)` with `y0 <= y < alto-1`, with no repeats |
| Entornos.CantidadComida | entorno.py:47-57 | the food count never exceeds the interior, is 0 when there is no interior, and is at least 1 when there is interior and the percentage is non-negative |
| Entornos.Muestra | entorno.py:56-57 | `random.sample` of `k` cells picks `k` and leaves the rest |
| Entornos.MuestraPermuta | entorno.py:56-57 | the picked cells and the cells left are the pool, reordered (multiset equality) |
| Entornos.MuestraSinRepetidos | entorno.py:56-58 | a sample of a pool without repeats picks cells of the pool, none twice |
| Tipos.CardinalSinRepetidos | entorno.py:58-62 | the set of a sample without repeats has as many cells as the sample, so `comida_total` is the drawn count |
| Entornos.SembradaInterior | entorno.py:41-63 | the seeded food set has exactly the computed count of cells, all interior, so no food is on a home cell |
| Entornos.Entorno.GenerarComida | entorno.py:36-63 | the food cells are the seeded sample, replacing the old ones; `comida_total == comida_actual == len(posiciones_comida)`; all food interior; the draws move on by the count |
| Entornos.Entorno.ReestablecerComida | entorno.py:65-69 | the food is drawn again from scratch, with the same guarantees |
| Entornos.Entorno.constructor | entorno.py:17-34 | a new grid has seeded food, an empty registry, and `comida_total == comida_actual == len(posiciones_comida)` |
| Entornos.Consumir | entorno.py:111-156 | reference definition of `consumir_comida`: food present and either priority or no priority particle registered gives success, removes the cell, lowers the count and drops the cell's registry entry; its properties are `ConsumirConserva` and `PrioridadGana` |
| Entornos.ConsumirConserva | entorno.py:123-156 | off a food cell nothing changes and the result is false; a success removes the cell, lowers `comida_actual` by one and deletes the cell's registry entry; no other food cell or registry entry changes; `comida_actual == len(posiciones_comida) <= comida_total` is kept |
| Entornos.PrioridadGana | entorno.py:135-156 | on a food cell a priority particle always eats; any other particle eats iff no priority particle is registered at that cell |
| Entornos.Entorno.ConsumirComida | entorno.py:111-156 | the outcome and the new food, count and registry are `Consumir` of the old ones, and the grid stays coherent |
| Entornos.Registrar | entorno.py:167-171 | after registration the particle is listed at the cell, the old list is kept, other cells are unchanged, and the cell's list holds the old entries plus the particle |
| Entornos.RegistrarIdempotente | entorno.py:167-171 | registering the same particle twice at a cell equals registering it once |
| Entornos.RegistrarSinRepetidos | entorno.py:170-171 | no cell lists a particle twice after registration |
| Entornos.Entorno.RegistrarParticulaEnPosicion | entorno.py:158-171 | the new registry is `Registrar` of the old one |
| Entornos.Entorno.LimpiarRegistroPosiciones | entorno.py:173-177 | the registry is empty afterwards |
| Entornos.PosicionEnBorde | entorno.py:197-204 | for every side and every offset along it, the cell is valid and a home cell |
| Entornos.Entorno.ObtenerPosicionInicialAleatoria | entorno.py:188-204 | the cell is `PosicionEnBorde` of the drawn side and the drawn offset, valid and a home cell; exactly two draws are used |
| Aleatorio.Azar.Elegir | particula.py:78 | a draw below `n` is the next answer of the source and moves the cursor by one |
| Aleatorio.Azar.Mordida | simulacion.py:89 | whether a bite is fatal is the next answer of the bite stream |
| Aleatorio.Azar.Herencia | simulacion.py:210 | the child's mutation is the next answer of the inheritance stream |
| Particulas.Particula.constructor | particula.py:29-54 | a new particle is alive and at home, with `posicion_actual == pos_inicial`, `camino == [pos_inicial]`, nothing eaten and no steps; without a given home it draws a valid home cell |
| Particulas.AmanecerValido | particula.py:49-54 | the fresh day state satisfies the path invariant, starting and ending at home |
| Particulas.Direccion | particula.py:78 | each attempt draws one of the four cardinal directions |
| Particulas.Busqueda | particula.py:76-103 | reference definition of the retry loop: the first of the remaining attempts whose drawn direction stays on the grid, or none; its properties are `BusquedaHallada`, `BusquedaPrimera`, `BusquedaSalta` and `BusquedaFalla` |
| Particulas.BusquedaHallada | particula.py:77-101 | the attempt the retry loop settles on is one of the 100, and its cell is on the grid, one unit away |
| Particulas.BusquedaPrimera | particula.py:77-85 | every attempt before the one settled on would have left the grid |
| Particulas.BusquedaSalta | particula.py:77-85 | attempts known to leave the grid can be skipped without changing the outcome |
| Particulas.BusquedaFalla | particula.py:76-103 | the retry loop finds nothing iff all remaining drawn directions leave the grid |
| Particulas.Paso | particula.py:61-103 | reference definition of `realizar_paso`: dead, resting at home, no valid attempt, or arrival at the first valid neighbour; its properties are `PasoQuieto`, `PasoMovimiento`, `PasoFallido` and `PasoConserva` |
| Particulas.PasoQuieto | particula.py:68-73 | a dead particle fails and changes nothing; a particle at home that has eaten rests, succeeds and changes nothing |
| Particulas.PasoMovimiento | particula.py:77-101 | a step that moves reaches a valid cell at distance 1, appends exactly it to the path, adds one step, sets the home flag from the border and eats at most once; a failed step changes neither the particle nor the food; at most 100 draws are used |
| Particulas.PasoFallido | particula.py:76-103 | a live non-resting particle fails iff all 100 drawn directions leave the grid, and then it has used all 100 draws |
| Particulas.PasoHallado | particula.py:85-101 | when attempt `t` is the first valid one, the step arrives there having used `t + 1` draws |
| Particulas.PasoAgotado | particula.py:102-103 | when no attempt is valid, the step fails and leaves the state unchanged |
| Particulas.AvanzarValido | particula.py:86-88 | a unit move appended to the path keeps the path invariant |
| Particulas.PasoConserva | particula.py:61-103 | every step keeps the path invariant (`camino[0] == pos_inicial`, last entry the position, one entry per step plus one, unit moves) and the grid's food bookkeeping |
| Particulas.Particula.Moverse | particula.py:86-99 | moving to a neighbour is `Llegar`: path, steps, home flag and food as the arrival rules say, invariants kept |
| Particulas.Particula.RealizarPaso | particula.py:61-103 | the outcome, the new day state, the food and the draws used are those of `Paso` of the old state; validity is kept |
| Particulas.Evaluacion | particula.py:105-134 | `sobrevive == en_casa`, `reproduce == (en_casa && comida >= 2)`, so reproducing implies surviving |
| Particulas.Particula.EvaluarFinDia | particula.py:105-134 | the same verdict, read from the particle's fields |
| Particulas.Particula.PrepararNuevoDia | particula.py:136-144 | whatever the state, the particle is back home with nothing eaten, path `[pos_inicial]` and no steps, and valid; so the reset is idempotent |
| Particulas.Particula.CrearHijo | particula.py:146-162 | the child is new, has id `n`, the same home and grid, generation `+1`, a fresh day state, the given mutation, and is not a predator |
| Particulas.Particula.ObtenerInfo | particula.py:164-180 | the snapshot reports the id, meals, alive and home flags, the position that ends the path and a step count one less than the path length |
| Particulas.Particula.RecibirMordida | simulacion.py:89 | the bite's outcome is the next fatal answer, and a fatal bite kills |
| Marchas.Marchar | simulacion.py:140-141 | a round of the first `k` agents keeps one day state per agent |
| Marchas.MarcharQuietos | simulacion.py:140-151 | in a round, agents not yet stepped, dead agents, and agents home with a meal keep their day state; the draws only advance |
| Marchas.MarcharConserva | simulacion.py:140-151 | a round keeps every agent's path invariant and the food bookkeeping |
| Marchas.PoblacionCaminan | simulacion.py:140-151 | a roster is well formed iff its agents belong to the grid with their role and each day state is a valid path from its home |
| Simulaciones.Simulacion.MoverTodas | simulacion.py:140-151 | one movement loop over a roster leaves its agents, the food and the draws as `Marchar` of their previous state; no other agent changes; the roster stays well formed |
| Simulaciones.Simulacion.MoverDesde | simulacion.py:140-141 | the loop takes the state from stage 0 of the round to its last stage |
| Simulaciones.Simulacion.MoverUna | simulacion.py:141 | one agent's step takes the state from stage `i` to stage `i + 1` |
| Simulaciones.Simulacion.MoverParticulas | simulacion.py:140-147 | the particles' loop is `Marchar` of the particles; the predators are untouched |
| Simulaciones.Simulacion.MoverDepredadores | simulacion.py:149-151 | the predators' loop is `Marchar` of the predators after the particles' round; the particles are untouched |
| Simulaciones.Simulacion.MarcharAmbos | simulacion.py:139-151 | both movement loops: the particles' round, then the predators' round starting from the food and draws it left |
| Simulaciones.Morder | simulacion.py:85-90 | one predator's bites over the roster keep one flag per particle |
| Simulaciones.MorderSalta | simulacion.py:86-88 | a particle that is dead, elsewhere or on a home cell is passed over |
| Simulaciones.MorderMuerde | simulacion.py:86-90 | a live particle on the predator's interior cell is bitten; a fatal bite kills it and counts once |
| Simulaciones.MorderCumple | simulacion.py:85-90 | one predator counts exactly the particles it kills, no more than its bites, revives no one, and kills only particles off the border on its own cell |
| Simulaciones.Atacar | simulacion.py:77-92 | the attack round keeps one flag per particle |
| Simulaciones.AtacarCumple | simulacion.py:72-92 | the count returned is the number of particles killed and at most the number of bites; no dead particle is revived; every particle killed was alive, off the border, on a predator's cell |
| Simulaciones.AtacarEnCasa | simulacion.py:77-82 | a predator on a home cell bites no one: adding it to the attack round leaves flags, deaths and bites unchanged |
| Simulaciones.Simulacion.MorderEn | simulacion.py:85-90 | the loop over the particles for one predator is `Morder` |
| Simulaciones.Simulacion.AtacarCon | simulacion.py:78-90 | a predator on a home cell is skipped; otherwise it bites as `Morder` says |
| Simulaciones.Simulacion.AtacarTodos | simulacion.py:77-92 | the loop over the predators is `Atacar` of the positions and flags of the moment |
| Simulaciones.Simulacion.ProcesarAtaquesDepredadores | simulacion.py:72-92 | the new flags, the count and the bites are `Atacar`; positions, food and movement draws are unchanged |
| Simulaciones.Simulacion.Turno | simulacion.py:138-155 | one round is `Marchar` of the particles, then `Marchar` of the predators, then `Atacar` on the cells they reached |
| Simulaciones.Simulacion.JugarTurnos | simulacion.py:135-157 | the `pasos_por_dia` rounds keep the controller well formed |
| Simulaciones.Simulacion.ObtenerNuevoId | simulacion.py:94-98 | the id is the old counter and the counter is one more |
| Simulaciones.Simulacion.NuevoAgente | simulacion.py:52-56 | a new agent is fresh, has the next id, a valid home on the border, a fresh day and the requested role; two draws are used |
| Simulaciones.Simulacion.CrearParticulasIniciales | simulacion.py:49-57 | `num_particulas_inicial` (when positive) new particles are appended with consecutive ids from the counter; the old roster is a prefix; ids stay unique |
| Simulaciones.Simulacion.constructor | simulacion.py:22-47 | day 1, empty history, no predators, and the initial particles with ids `0..n-1` |
| Simulaciones.Simulacion.GenerarDepredadores | simulacion.py:59-70 | it reports true iff `frecuencia > 0 && dia % frecuencia == 0`, and then exactly `cantidad_depredadores` new predators with fresh ids are appended; otherwise the predators are unchanged |
| Simulaciones.Simulacion.CrearDepredadores | simulacion.py:62-68 | `cantidad_depredadores` (when positive) predators are appended with consecutive ids |
| Simulaciones.Evaluar | simulacion.py:194-222 | reference definition of one turn of the end-of-day loop: a dead or non-surviving particle is a death, a survivor is kept, a reproducing one is followed by its child; its property is `EvaluarAgrega` |
| Simulaciones.Plan | simulacion.py:187-222 | reference definition of the whole end-of-day loop, `Evaluar` over the roster in order; its properties are `PlanCuentas`, `PlanEntradas`, `PlanSobrevive`, `PlanIds` and `EncajaPlan` |
| Simulaciones.EvaluarAgrega | simulacion.py:194-222 | the fold step appends nothing, the particle alone (alive and home), or the particle and then its child with the next id (alive, home, two meals) |
| Simulaciones.PlanCuentas | simulacion.py:187-235 | `particulas_finales + muertes == len(old roster) + reproducciones`; ids and mutation draws advance once per birth; `nuevas_mutaciones_velocidad + nuevas_mutaciones_prioridad <= reproducciones`; deaths at most the old roster |
| Simulaciones.PlanEntradas | simulacion.py:203-219 | survivors keep their order; each child comes right after its parent, which had two meals; children's ids increase and are new |
| Simulaciones.PlanSobrevive | simulacion.py:196-222 | a particle stays in the roster iff it was alive and at home |
| Simulaciones.PlanIds | simulacion.py:204-212 | ids stay unique and below the counter across the rebuild |
| Simulaciones.EncajaPlan | simulacion.py:194-225 | a roster built as the plan says is well formed with unique ids, and every kept particle is the old one that was alive and home |
| Simulaciones.ContarTotal | simulacion.py:228-230 | the three per-mutation counts add up to the roster size |
| Simulaciones.Simulacion.EvaluarParticula | simulacion.py:196-222 | one particle's fold step is `Evaluar`; a non-survivor is marked dead; a child is new, alive and has the next id |
| Simulaciones.Simulacion.DepurarPaso | simulacion.py:194-222 | one turn of the loop extends the roster and the tallies as `Evaluar` says, and marks dead only this particle if it is away from home |
| Simulaciones.Simulacion.Depurados | simulacion.py:194-222 | the loop's roster and tallies are `Plan` of the particles' end-of-day records; exactly the particles away from home are newly marked dead |
| Simulaciones.Simulacion.Depurar | simulacion.py:194-222 | the same, for the current roster: every particle ends alive iff it was alive and at home; each child in the new roster is new and alive |
| Simulaciones.Simulacion.Registrar | simulacion.py:225-252 | the new roster replaces the old one and the statistics join the history |
| Simulaciones.Simulacion.EvaluarFinDia | simulacion.py:175-265 | the new roster matches `Plan`; all its particles are alive and are old or new; the statistics hold the corrected start count (the old roster size, see Findings), the plan's tallies, the food counts, the mutation counts of the new roster and the predator figures; the record joins the history |
| Simulaciones.InicialesEscritas | simulacion.py:234 | as written, the start-of-day count is the new roster size plus the deaths |
| Simulaciones.InicialesEscritasCuentanHijos | simulacion.py:234 | as written, that count is the old roster plus the births |
| Simulaciones.InicialesEscritasEjemplo | simulacion.py:234 | one particle that ate twice and came home is reported as two at the start of the day |
| Simulaciones.InicialesCuadran | simulacion.py:234 | the old roster size plus the births equals the survivors plus the deaths |
| Simulaciones.Simulacion.PrepararUna | simulacion.py:274 | one particle starts a fresh day; the controller stays well formed |
| Simulaciones.Simulacion.PrepararParticulas | simulacion.py:273-274 | every particle of the roster starts a fresh day at its home |
| Simulaciones.Simulacion.PrepararSiguienteDia | simulacion.py:267-274 | the day number goes up by one, the food is sown afresh, and every particle starts a fresh day |
| Simulaciones.Simulacion.Despedir | simulacion.py:164-168 | the day is evaluated and one record joins the history; the predators are gone |
| Simulaciones.Simulacion.CerrarDia | simulacion.py:164-171 | evaluation, predators gone, next day prepared: one record numbered by the day, all particles alive and at home, fresh food |
| Simulaciones.Simulacion.SimularDia | simulacion.py:100-173 | exactly one record, numbered by the old day, joins the history; it reports the predators of the day; the predators are gone; the day number is one more; every particle left is alive and reset to a fresh day at home; the fresh food has `comida_total == comida_actual == len(posiciones_comida)` |
| Simulaciones.Simulacion.EjecutarSimulacionCompleta | simulacion.py:276-314 | the loop stops exactly when the roster is empty or the day number passed `max_dias`: when it stops one of the two holds, and every day but the last ended with particles left, the last one with as many as the roster holds; it runs at most `max_dias - dia + 1` days; the history gains one record per day, numbered consecutively, after the old history, and is returned |

## Left out

- Colour (`particula.py:55-59`, `160`), all printing and progress output,
  the animation copy of the roster (`simulacion.py:125-147`, `162`),
  `visualizador.py` and `main.py`: rendering and console input only.
- Floating point:
  - the food percentage is a rational;
  - `random.random` is used only for colour;
  - the statistics fields `porcentaje_comida` and `tipo_dia`
    (`simulacion.py:241-242`) are not modelled, because they read attributes
    that `entorno.py` does not define.
- `obtener_estado_actual` (`simulacion.py:316-329`): a read-only report.
- `Simulaciones.Simulacion.constructor`: requires `ancho >= 1 && alto >= 1`
  even when no particle is created. `random.randint(0, ancho - 1)` raises
  `ValueError` on a grid with no columns (or rows), so the model's callers
  must have a grid of at least 1x1 wherever a home cell is drawn
  (`ObtenerPosicionInicialAleatoria`, `NuevoAgente`).
- `Simulaciones.Simulacion.EvaluarFinDia`: records as `particulas_iniciales`
  the corrected count, the size of the old roster. The program as written
  records the new roster's size plus the deaths (`simulacion.py:225,234`),
  which also counts that day's children: one particle home with two meals is
  recorded as 2, against 1 in the model. The as-written value is
  `Simulaciones.InicialesEscritas` (see Findings).
- Default arguments: every parameter is explicit. The program's defaults
  are `Entorno(ancho=100, alto=100, porcentaje_comida=0.20)`,
  `Simulacion(num_particulas_inicial=10, pasos_por_dia=100,
  frecuencia_depredadores=2, cantidad_depredadores=1)` and
  `max_dias=100`; the model's callers pass those values when they want them.
- Bite fatality and child mutations: abstract streams. The code that decides
  them is not part of this model.
- `Simulaciones.Simulacion.JugarTurnos`: does not state the deaths it adds up
  or the state after the rounds. Each round is specified exactly by `Turno`;
  across rounds the model states only that the controller stays well formed.
- `Simulaciones.Simulacion.SimularDia`: states the day's bookkeeping (one
  record, predators gone, day number, fresh day for every particle, fresh
  food), not the day's outcome as one function of the morning state.
- `Simulaciones.Simulacion.EjecutarSimulacionCompleta`: states the loop's
  bounds and the shape of the history, not the statistics' contents.
- `Marchas.Marchar`, `Simulaciones.Morder`, `Simulaciones.Atacar`: their own
  contracts state only the lengths. Their meaning is given by the lemmas and
  methods about them (`MarcharQuietos`, `MarcharConserva`, `MorderCumple`,
  `AtacarCumple`, `MoverTodas`, `AtacarTodos`).
- The registry is filled only by `registrar_particula_en_posicion`, which no
  shown code calls, so in practice every priority check sees an empty list.
  The model keeps the registry general.

## Findings

| source | as written | input that shows it | evidently intended | confidence | as-written member | corrected member |
|---|---|---|---|---|---|---|
| simulacion.py:234 | `particulas_iniciales` is `len(self.particulas) + muertes`, computed after the roster was replaced by the survivors and their children, so the children born that day are counted as present at its start | one particle, alive, at home, two meals: the day starts with 1 particle and the record says 2 | the number of particles at the start of the day, `len` of the old roster | not executed | Simulaciones.InicialesEscritasEjemplo | Simulaciones.InicialesCuadran |

`Simulaciones.InicialesEscritas` and `InicialesEscritasCuentanHijos` model the
line as written. `Simulaciones.Iniciales` is the corrected count, and
`EvaluarFinDia` records it.
