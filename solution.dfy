/** The candidate solution and its PSO refinement (library/solution.py).
    `Solution.__init__` and `PSOSolution.__init__` together become the one
    constructor of `Particle`; the fitness of the concrete problem is a pure
    function of the representation and is passed in. */
module Solution {
  import opened Wrappers
  import opened Vectors

  /** A value copy of a particle, as `deepcopy` produces it: position,
      velocity and personal best. */
  datatype State = State(repr: Vector, velocity: Vector, bestRepr: Vector, bestFitness: real)

  /** Position, velocity and personal best all have the search-space dimension. */
  predicate Shaped(s: State, dim: nat)
  {
    |s.repr| == dim && |s.velocity| == dim && |s.bestRepr| == dim
  }

  /** The recorded personal-best fitness is the fitness of the personal best. */
  predicate Consistent(s: State, fitness: Vector -> real)
  {
    s.bestFitness == fitness(s.bestRepr)
  }

  class Particle {
    var repr: Vector
    var velocity: Vector
    var bestRepr: Vector
    var bestFitness: real

    /** `PSOSolution(repr)`. `randomRepr` is the value the problem's
        `random_initial_representation()` returns; it is consulted only when
        no representation is given. */
    constructor (given: Option<Vector>, randomRepr: Vector, fitness: Vector -> real)
      ensures given.Some? ==> repr == given.value
      ensures given.None? ==> repr == randomRepr
      ensures bestRepr == repr && bestFitness == fitness(repr)
      ensures |velocity| == |repr| && forall i :: 0 <= i < |velocity| ==> velocity[i] == 0.0
      ensures Shaped(Snapshot(), |repr|) && Consistent(Snapshot(), fitness)
    {
      // Solution.__init__
      var r: Vector;
      if given.None? {
        r := randomRepr;
      } else {
        r := given.value;
      }
      repr := r;
      bestRepr, velocity, bestFitness := [], [], 0.0;
      new;
      // PSOSolution.__init__
      bestRepr := repr;
      bestFitness := fitness(repr);
      velocity := Zeros(|repr|);
    }

    /** `deepcopy(self)`. */
    function Snapshot(): State
      reads this
    {
      State(repr, velocity, bestRepr, bestFitness)
    }
  }
}
