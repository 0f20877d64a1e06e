# Particle Swarm Optimisation, modelled in Dafny

This project models the Particle Swarm Optimisation (PSO) engine of the
CIFO library and the warehouse-location particle that feeds it. Everything
is proved with the Dafny verifier.

- `wrappers.dfy`, module `Wrappers`: `Option` and `Result`. They stand for
  the source's `None` and its `ValueError`s.
- `vectors.dfy`, module `Vectors`: element-wise vector arithmetic over
  `real`. It stands for the numpy operations of the update (`+`, `-`,
  scalar `*`, `np.multiply`, an all-zero array).
- `solution.dfy`, module `Solution`:
  - the class `Particle`, whose fields the engine updates in place;
  - its constructor, which merges `Solution.__init__` and
    `PSOSolution.__init__`;
  - the value `State`, a `deepcopy` snapshot of a particle.
- `pso.dfy`, module `Pso`, in two parts:
  - Specification functions: `BestIndex`, `InitialBest`, `StepState`,
    `MoveAll`, `UpdateGlobalBest`, `Iterate` and `Run`, a run of `k`
    iterations. Lemmas about them cover personal bests, the history's
    length and the never-worsening global best.
  - Imperative engine: `UpdateParticle`, `MoveParticles`,
    `UpdateGlobalBestOf`, `IterateOnce`, `RunIterations` and
    `ParticleSwarmOptimization`. They mutate `Particle` objects in place,
    as `particle_swarm_optimization` does. Each is proved to leave exactly
    the state the specification functions describe.
- `warehouse.dfy`, module `Warehouse`:
  - the representation validator `_validate_repr`, with numpy's int/float
    promotion made explicit;
  - the "validate only if truthy" step of `WarehousePSOSolution.__init__`;
  - the bounding-box initialiser `random_initial_representation`;
  - the constructor of a warehouse particle.

Fitness is an abstract function `Vector -> real`, a parameter of every
operation that needs it. The random numbers are inputs:

- `r1[t][i]` and `r2[t][i]` are the vectors that iteration `t` draws for
  particle `i`;
- `UnitDraws` holds the six `random.random()` samples behind the six
  `random.uniform` calls of the initialiser.

Both kinds of input are required to lie in `[0, 1)`. Python's
`random.uniform(a, b)` is modelled by its definition,
`a + (b - a) * random.random()`.

`min(population, key=...)` and `max(population, key=...)` return the FIRST
item of best fitness. `BestIndex` scans from the left and moves only to a
strictly better item, so it picks the same particle.

The source updates the personal best on a strict `<` in both directions,
even when maximising (library/algorithms/pso.py:53). The model does the
same. As a result, a particle's `bestFitness` never increases, whatever
the direction (`RunPersonalBests`).

The whole engine is stated for a population of pairwise distinct particle
objects.

## Model

| member | source | states |
|---|---|---|
| Pso.Iterations | library/algorithms/pso.py:29 | `range(max_iter)` makes `max_iter` passes when positive and none otherwise |
| Pso.BestIndex | library/algorithms/pso.py:21-24 | the chosen index is no worse than any other and strictly better than every earlier one, so it is the first best, as Python's `min`/`max` returns it |
| Pso.InitialBest | library/algorithms/pso.py:21-24 | the initial global best is a member of the population whose fitness is minimal, or maximal when maximising |
| Pso.StepState | library/algorithms/pso.py:37-55 | new position = old position + OLD velocity, per dimension; new velocity = `w*v + c1*r1*(best_repr - repr) + c2*r2*(global_best.repr - repr)` on the pre-move position; the personal best is replaced exactly when the new fitness is strictly below `best_fitness`, so `best_fitness` never increases and stays consistent; dimensions are kept |
| Pso.MoveAll | library/algorithms/pso.py:33-59 | each particle moves with its own draws against the SAME global-best position; the number of particles is kept |
| Pso.UpdateGlobalBest | library/algorithms/pso.py:61-69 | the new global best is the old one or a particle; it changes only on strict improvement in the chosen direction, is never worse than the old one, and is no worse than every particle |
| Pso.Iterate | library/algorithms/pso.py:33-71 | one iteration keeps the swarm's size and every particle's dimension |
| Pso.Run | library/algorithms/pso.py:29-71 | any number of iterations keeps the swarm's size and dimensions |
| Pso.RunHistoryLength | library/algorithms/pso.py:26-71 | every iteration appends exactly one history entry and leaves earlier entries alone; after at least one iteration the last entry is the current global best |
| Pso.RunPersonalBests | library/algorithms/pso.py:53-55 | over a run, each particle's `best_fitness` never increases, and a personal best consistent with the fitness stays consistent |
| Pso.IterateKeepsHistoryOrdered | library/algorithms/pso.py:61-71 | one iteration keeps the history never-worsening, replaced only on strict improvement, and ending in the global best |
| Pso.RunGlobalBestNeverWorsens | library/algorithms/pso.py:61-71 | over a run, the history's fitness never gets worse (non-increasing when minimising, non-decreasing when maximising); each entry repeats its predecessor or strictly improves on it; the final global best is no worse than the starting one |
| Pso.OutcomeProperties | library/algorithms/pso.py:20-77 | from the initial global best: the history has one entry per iteration; with no iterations the result is the initial best; the last entry is the result; the history is ordered as above, and the final best is no worse than the initial best |
| Pso.UpdateParticle | library/algorithms/pso.py:37-55 | the in-place update of one particle leaves it in the state `StepState` gives |
| Pso.MoveParticles | library/algorithms/pso.py:33-59 | the inner loop leaves the population in the state `MoveAll` gives, all particles reading the same global best |
| Pso.UpdateGlobalBestOf | library/algorithms/pso.py:61-69 | the global-best update on the live population computes `UpdateGlobalBest` of its snapshot |
| Pso.IterateOnce | library/algorithms/pso.py:33-71 | one pass of the outer loop takes the particles, the global best and the history from iteration `t` of `Run` to iteration `t + 1` |
| Pso.RunIterations | library/algorithms/pso.py:26-71 | the outer loop ends with particles, global best and history equal to those of `Run` after `max_iter` iterations |
| Pso.ParticleSwarmOptimization | library/algorithms/pso.py:6-77 | with the source's defaults `w = 0.5`, `c1 = c2 = 1.5`, minimisation and 100 iterations: an empty population fails, as `min`/`max` raise; otherwise the particles and the returned pair are those of the run from the initial global best; the history has `max(max_iter, 0)` entries; with `max_iter <= 0` it is empty and the result is the initial best; the result is the last history entry; the history never worsens, changes only on strict improvement, and the result is no worse than the initial best |
| Solution.Particle.constructor | library/solution.py:5-34 | the given representation is stored unchanged, and without one the random representation is used; `best_repr` is the representation, `best_fitness` its fitness, and the velocity all zeros of the same length |
| Warehouse.ToArray | library/problems/warehouse.py:37 | `np.array` gives an all-float array exactly when the items are numbers with at least one float (or there are none); it keeps the length, and each float holds the item's value |
| Warehouse.ValidateRepr | library/problems/warehouse.py:35-44 | neither list nor tuple is rejected; a length other than 2 is rejected; a non-float coordinate is rejected; it is accepted exactly when it is a list or tuple of two numbers with at least one float, and the two values come back in order |
| Warehouse.ForwardedRepr | library/problems/warehouse.py:26-33 | validation runs exactly when `repr` is truthy: `None` is forwarded as `None`, an empty list or tuple as the empty vector, and anything else as the validator decides, its error included |
| Warehouse.Minimum | library/problems/warehouse.py:57-58 | `min` of a non-empty sequence is one of its items and no larger than any |
| Warehouse.Maximum | library/problems/warehouse.py:57-58 | `max` of a non-empty sequence is one of its items and no smaller than any |
| Warehouse.Uniform | library/problems/warehouse.py:63-64 | `random.uniform(a, b)` lies between `a` and `b`, in whichever order they come |
| Warehouse.RandomInitialRepresentation | library/problems/warehouse.py:53-73 | with no customers it fails; otherwise it returns two coordinates, the latitude in `[min_lat, max_lat]` and the longitude in `[min_lon, max_lon]`, each drawn between the two swapped bounds |
| Warehouse.NewParticle | library/problems/warehouse.py:20-33 | an invalid truthy `repr` raises the validator's error; without one, construction fails exactly when there are no customers, and otherwise the location lies in the customers' bounding box; a forwarded representation is stored exactly when the first `fitness()` call can broadcast it against the customers, so an empty list or tuple, or an empty customer list, raises; every particle built has two coordinates; the personal best and zero velocity are set as in the base constructor |

## Left out

- Verbose output (library/algorithms/pso.py:30-35, 57-59, 73-75) is I/O. It has no effect on the result.
- Random number generation is not modelled. Every `random.random()` sample is an input in `[0, 1)`.
- Floating-point rounding is not modelled: vectors are `seq<real>` and fitness values are `real`.
- The warehouse fitness (library/problems/warehouse.py:46-51) is left abstract. It is a weighted sum of Euclidean distances, whose `sqrt` has float semantics.
- `deepcopy` and numpy aliasing are value semantics here. A snapshot is a `State` value. Both branches of the global-best update (library/algorithms/pso.py:63-69) therefore look the same, whether or not they copy a second time.
- Duplicate particle objects are excluded: every engine method requires the population's particles to be pairwise distinct. Python allows the same object to be listed twice and then moves it twice per iteration.
- The `0 <= r < 1` range of `r1` and `r2` is required of callers, as the source's `random.random()` guarantees. No property proved here depends on it.
- The zero velocity is an int array in the source (library/solution.py:34). Here it is a vector of real zeros; numpy's promotion makes the first `repr + velocity` a float array anyway.
- numpy's "ambiguous truth value" errors are not modelled. The given representation is a plain `Option`. In Python, `repr == None` on a validated two-element array (library/solution.py:7) and `if repr:` on an ndarray (library/problems/warehouse.py:27) would raise.
- Warehouse.ForwardedRepr: a value that is neither `None` nor a list or tuple is taken to be truthy. A falsy non-sequence such as `0` or `""` would skip validation in Python and fail later in the base constructor.
- Customer locations are pairs of reals. The source unpacks rows of any shape with `zip(*...)`, and malformed rows are not modelled.
- Warehouse.NewParticle: `delivery_cost` is not modelled. In Python, the first `fitness()` call (library/problems/warehouse.py:51) also raises when its length differs from the number of customers; here that construction succeeds.
- Pso.ParticleSwarmOptimization: every particle must have the dimension of the first one. The source never checks this. numpy raises a broadcast error for mismatched lengths, or silently broadcasts a length-1 `repr`, and neither behaviour is modelled.
- The `ABC` machinery, `__repr__` and string display (library/solution.py:12-23) are language plumbing and are not modelled.
