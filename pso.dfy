/** The Particle Swarm Optimisation loop (library/algorithms/pso.py).

    The pure part specifies one particle's move (`StepState`), the choice of
    the population's best (`BestIndex`), the global-best update
    (`UpdateGlobalBest`), one iteration (`Iterate`) and a whole run (`Run`).
    The imperative part, `UpdateParticle` and `ParticleSwarmOptimization`,
    mutates `Particle` objects in place as the source does and is proved to
    end in the state `Run` describes. Random vectors `r1` and `r2` are inputs,
    indexed by iteration, then particle, then dimension. */
module Pso {
  import opened Wrappers
  import opened Vectors
  import opened Solution

  /** The hyperparameters `w`, `c1`, `c2` and the optimisation direction. */
  datatype Config = Config(w: real, c1: real, c2: real, maximization: bool)

  /** The engine's whole state between iterations. */
  datatype Swarm = Swarm(particles: seq<State>, globalBest: State, history: seq<State>)

  /** Fitness `a` is strictly better than `b` in the chosen direction. */
  predicate Better(a: real, b: real, maximization: bool)
  {
    if maximization then a > b else a < b
  }

  /** Fitness `a` is at least as good as `b`. */
  predicate NoWorse(a: real, b: real, maximization: bool)
  {
    !Better(b, a, maximization)
  }

  /** The number of passes `for iter in range(max_iter)` makes. */
  function Iterations(maxIter: int): (n: nat)
    ensures maxIter <= 0 ==> n == 0
    ensures maxIter > 0 ==> n == maxIter
  {
    if maxIter < 0 then 0 else maxIter
  }

  function Fitnesses(particles: seq<State>, fitness: Vector -> real): (fs: seq<real>)
    ensures |fs| == |particles|
    ensures forall i :: 0 <= i < |particles| ==> fs[i] == fitness(particles[i].repr)
  {
    seq(|particles|, i requires 0 <= i < |particles| => fitness(particles[i].repr))
  }

  /** The index Python's `min(population, key=fitness)` (or `max`) returns:
      a scan from the left that moves only to a strictly better item, so the
      result is the FIRST best. */
  function BestIndex(fs: seq<real>, maximization: bool): (k: nat)
    requires |fs| > 0
    ensures k < |fs|
    ensures forall j :: 0 <= j < |fs| ==> NoWorse(fs[k], fs[j], maximization)
    ensures forall j :: 0 <= j < k ==> Better(fs[k], fs[j], maximization)
    decreases |fs|
  {
    if |fs| == 1 then 0
    else
      var k := BestIndex(fs[..|fs| - 1], maximization);
      if Better(fs[|fs| - 1], fs[k], maximization) then |fs| - 1 else k
  }

  /** The initial global best: a copy of a population member of best fitness. */
  function InitialBest(particles: seq<State>, fitness: Vector -> real, maximization: bool): (r: State)
    requires |particles| > 0
    ensures r in particles
    ensures forall i :: 0 <= i < |particles| ==> NoWorse(fitness(r.repr), fitness(particles[i].repr), maximization)
  {
    particles[BestIndex(Fitnesses(particles, fitness), maximization)]
  }

  /** One particle's move against the global best `globalBestRepr`. The new
      position takes the OLD velocity; the new velocity is inertia plus
      cognitive plus social term, all on the pre-move position; the personal
      best is replaced only on a strict `<`, whatever the direction. */
  function StepState(p: State, globalBestRepr: Vector, fitness: Vector -> real, cfg: Config, r1: Vector, r2: Vector): (r: State)
    requires Shaped(p, |globalBestRepr|) && |r1| == |globalBestRepr| && |r2| == |globalBestRepr|
    ensures Shaped(r, |globalBestRepr|)
    ensures forall i :: 0 <= i < |r.repr| ==> r.repr[i] == p.repr[i] + p.velocity[i]
    ensures forall i :: 0 <= i < |r.velocity| ==>
      r.velocity[i] == cfg.w * p.velocity[i]
                       + cfg.c1 * r1[i] * (p.bestRepr[i] - p.repr[i])
                       + cfg.c2 * r2[i] * (globalBestRepr[i] - p.repr[i])
    ensures fitness(r.repr) < p.bestFitness ==> r.bestRepr == r.repr && r.bestFitness == fitness(r.repr)
    ensures !(fitness(r.repr) < p.bestFitness) ==> r.bestRepr == p.bestRepr && r.bestFitness == p.bestFitness
    ensures r.bestFitness <= p.bestFitness && r.bestFitness <= fitness(r.repr)
    ensures Consistent(p, fitness) ==> Consistent(r, fitness)
  {
    var newPosition := Add(p.repr, p.velocity);
    var inertia := Scale(cfg.w, p.velocity);
    var cognitive := Mul(Scale(cfg.c1, r1), Sub(p.bestRepr, p.repr));
    var social := Mul(Scale(cfg.c2, r2), Sub(globalBestRepr, p.repr));
    var newVelocity := Add(Add(inertia, cognitive), social);
    if fitness(newPosition) < p.bestFitness then
      State(newPosition, newVelocity, newPosition, fitness(newPosition))
    else
      State(newPosition, newVelocity, p.bestRepr, p.bestFitness)
  }

  /** The global-best update after all particles moved: the population's
      best replaces the global best only when strictly better. */
  function UpdateGlobalBest(globalBest: State, particles: seq<State>, fitness: Vector -> real, maximization: bool): (r: State)
    requires |particles| > 0
    ensures r == globalBest || r in particles
    ensures r != globalBest ==> Better(fitness(r.repr), fitness(globalBest.repr), maximization)
    ensures NoWorse(fitness(r.repr), fitness(globalBest.repr), maximization)
    ensures forall i :: 0 <= i < |particles| ==> NoWorse(fitness(r.repr), fitness(particles[i].repr), maximization)
  {
    var candidate := particles[BestIndex(Fitnesses(particles, fitness), maximization)];
    if Better(fitness(candidate.repr), fitness(globalBest.repr), maximization) then candidate else globalBest
  }

  predicate SwarmShaped(s: Swarm, dim: nat)
  {
    && |s.particles| > 0
    && |s.globalBest.repr| == dim
    && forall i :: 0 <= i < |s.particles| ==> Shaped(s.particles[i], dim)
  }

  /** One draw of `random.random()` per particle and dimension. */
  predicate DrawsShaped(rs: seq<Vector>, n: nat, dim: nat)
  {
    |rs| == n && forall i :: 0 <= i < n ==> |rs[i]| == dim
  }

  predicate AllDrawsShaped(rs: seq<seq<Vector>>, n: nat, dim: nat)
  {
    forall t :: 0 <= t < |rs| ==> DrawsShaped(rs[t], n, dim)
  }

  /** The inner loop: every particle moves against the SAME global best. */
  function MoveAll(particles: seq<State>, globalBestRepr: Vector, fitness: Vector -> real, cfg: Config, r1: seq<Vector>, r2: seq<Vector>): (r: seq<State>)
    requires forall i :: 0 <= i < |particles| ==> Shaped(particles[i], |globalBestRepr|)
    requires DrawsShaped(r1, |particles|, |globalBestRepr|) && DrawsShaped(r2, |particles|, |globalBestRepr|)
    ensures |r| == |particles|
    ensures forall i :: 0 <= i < |particles| ==> r[i] == StepState(particles[i], globalBestRepr, fitness, cfg, r1[i], r2[i])
  {
    seq(|particles|, i requires 0 <= i < |particles| =>
      StepState(particles[i], globalBestRepr, fitness, cfg, r1[i], r2[i]))
  }

  /** One iteration of the outer loop: every particle moves against the
      SAME global best, the one fixed before the iteration; then the global
      best is updated and one copy of it is appended to the history. */
  function Iterate(s: Swarm, dim: nat, fitness: Vector -> real, cfg: Config, r1: seq<Vector>, r2: seq<Vector>): (r: Swarm)
    requires SwarmShaped(s, dim)
    requires DrawsShaped(r1, |s.particles|, dim) && DrawsShaped(r2, |s.particles|, dim)
    ensures SwarmShaped(r, dim) && |r.particles| == |s.particles|
  {
    var moved := MoveAll(s.particles, s.globalBest.repr, fitness, cfg, r1, r2);
    var best := UpdateGlobalBest(s.globalBest, moved, fitness, cfg.maximization);
    Swarm(moved, best, s.history + [best])
  }

  /** The first `k` iterations of a run starting from `s`. */
  function Run(s: Swarm, dim: nat, fitness: Vector -> real, cfg: Config, r1: seq<seq<Vector>>, r2: seq<seq<Vector>>, k: nat): (r: Swarm)
    requires SwarmShaped(s, dim)
    requires k <= |r1| && k <= |r2|
    requires AllDrawsShaped(r1, |s.particles|, dim) && AllDrawsShaped(r2, |s.particles|, dim)
    ensures SwarmShaped(r, dim) && |r.particles| == |s.particles|
    decreases k
  {
    if k == 0 then s
    else Iterate(Run(s, dim, fitness, cfg, r1, r2, k - 1), dim, fitness, cfg, r1[k - 1], r2[k - 1])
  }

  /** What one iteration is made of: the moved particles, the updated
      global best, and the history with that best appended. */
  lemma IterateParts(s: Swarm, dim: nat, fitness: Vector -> real, cfg: Config, r1: seq<Vector>, r2: seq<Vector>)
    requires SwarmShaped(s, dim)
    requires DrawsShaped(r1, |s.particles|, dim) && DrawsShaped(r2, |s.particles|, dim)
    ensures var r := Iterate(s, dim, fitness, cfg, r1, r2);
      && r.particles == MoveAll(s.particles, s.globalBest.repr, fitness, cfg, r1, r2)
      && r.globalBest == UpdateGlobalBest(s.globalBest, r.particles, fitness, cfg.maximization)
      && r.history == s.history + [r.globalBest]
  {
  }

  /** Global-best fitness never worsens along a history. */
  ghost predicate NeverWorsens(h: seq<State>, fitness: Vector -> real, maximization: bool)
  {
    forall i, j :: 0 <= i <= j < |h| ==> NoWorse(fitness(h[j].repr), fitness(h[i].repr), maximization)
  }

  /** Each entry equals its predecessor or is strictly better: ties keep the
      earlier best. */
  ghost predicate ReplacedOnlyOnImprovement(h: seq<State>, fitness: Vector -> real, maximization: bool)
  {
    forall i :: 0 < i < |h| ==> h[i] == h[i - 1] || Better(fitness(h[i].repr), fitness(h[i - 1].repr), maximization)
  }

  /** The history's last entry is the current global best. */
  ghost predicate Tracked(s: Swarm)
  {
    |s.history| > 0 ==> s.history[|s.history| - 1] == s.globalBest
  }

  /** Exactly one history entry per iteration; earlier entries stay as they were. */
  lemma {:induction false} RunHistoryLength(s: Swarm, dim: nat, fitness: Vector -> real, cfg: Config, r1: seq<seq<Vector>>, r2: seq<seq<Vector>>, k: nat)
    requires SwarmShaped(s, dim)
    requires k <= |r1| && k <= |r2|
    requires AllDrawsShaped(r1, |s.particles|, dim) && AllDrawsShaped(r2, |s.particles|, dim)
    ensures |Run(s, dim, fitness, cfg, r1, r2, k).history| == |s.history| + k
    ensures Run(s, dim, fitness, cfg, r1, r2, k).history[..|s.history|] == s.history
    ensures k > 0 ==> Tracked(Run(s, dim, fitness, cfg, r1, r2, k))
  {
    hide Iterate;
    if k > 0 {
      RunHistoryLength(s, dim, fitness, cfg, r1, r2, k - 1);
      var prev := Run(s, dim, fitness, cfg, r1, r2, k - 1);
      IterateParts(prev, dim, fitness, cfg, r1[k - 1], r2[k - 1]);
    }
  }

  /** Every particle's recorded personal-best fitness never increases over a
      run, in either direction, and a consistent personal best stays
      consistent. */
  lemma {:induction false} RunPersonalBests(s: Swarm, dim: nat, fitness: Vector -> real, cfg: Config, r1: seq<seq<Vector>>, r2: seq<seq<Vector>>, k: nat)
    requires SwarmShaped(s, dim)
    requires k <= |r1| && k <= |r2|
    requires AllDrawsShaped(r1, |s.particles|, dim) && AllDrawsShaped(r2, |s.particles|, dim)
    ensures forall i :: 0 <= i < |s.particles| ==>
      Run(s, dim, fitness, cfg, r1, r2, k).particles[i].bestFitness <= s.particles[i].bestFitness
    ensures forall i :: 0 <= i < |s.particles| && Consistent(s.particles[i], fitness) ==>
      Consistent(Run(s, dim, fitness, cfg, r1, r2, k).particles[i], fitness)
  {
    hide Iterate;
    if k > 0 {
      RunPersonalBests(s, dim, fitness, cfg, r1, r2, k - 1);
      var prev := Run(s, dim, fitness, cfg, r1, r2, k - 1);
      var next := Run(s, dim, fitness, cfg, r1, r2, k);
      IterateParts(prev, dim, fitness, cfg, r1[k - 1], r2[k - 1]);
      forall i | 0 <= i < |s.particles|
        ensures next.particles[i].bestFitness <= prev.particles[i].bestFitness
        ensures Consistent(prev.particles[i], fitness) ==> Consistent(next.particles[i], fitness)
      {
        assert next.particles[i] == StepState(prev.particles[i], prev.globalBest.repr, fitness, cfg, r1[k - 1][i], r2[k - 1][i]);
      }
    }
  }

  /** One iteration keeps the history ordered and tracked. */
  lemma IterateKeepsHistoryOrdered(s: Swarm, dim: nat, fitness: Vector -> real, cfg: Config, r1: seq<Vector>, r2: seq<Vector>)
    requires SwarmShaped(s, dim)
    requires DrawsShaped(r1, |s.particles|, dim) && DrawsShaped(r2, |s.particles|, dim)
    requires Tracked(s)
    requires NeverWorsens(s.history, fitness, cfg.maximization)
    requires ReplacedOnlyOnImprovement(s.history, fitness, cfg.maximization)
    ensures Tracked(Iterate(s, dim, fitness, cfg, r1, r2))
    ensures NeverWorsens(Iterate(s, dim, fitness, cfg, r1, r2).history, fitness, cfg.maximization)
    ensures ReplacedOnlyOnImprovement(Iterate(s, dim, fitness, cfg, r1, r2).history, fitness, cfg.maximization)
    ensures NoWorse(fitness(Iterate(s, dim, fitness, cfg, r1, r2).globalBest.repr), fitness(s.globalBest.repr), cfg.maximization)
  {
    var r := Iterate(s, dim, fitness, cfg, r1, r2);
    var h, n := r.history, |s.history|;
    assert h == s.history + [r.globalBest];
    forall i, j | 0 <= i <= j < |h|
      ensures NoWorse(fitness(h[j].repr), fitness(h[i].repr), cfg.maximization)
    {
      if j == n && i < n {
        assert h[n - 1] == s.globalBest;
        assert NoWorse(fitness(s.globalBest.repr), fitness(h[i].repr), cfg.maximization);
      }
    }
  }

  /** Global-best fitness never worsens across a run: non-increasing when
      minimising, non-decreasing when maximising; the best is replaced only
      on strict improvement; and every history entry is at least as good as
      the starting global best. */
  lemma {:induction false} RunGlobalBestNeverWorsens(s: Swarm, dim: nat, fitness: Vector -> real, cfg: Config, r1: seq<seq<Vector>>, r2: seq<seq<Vector>>, k: nat)
    requires SwarmShaped(s, dim)
    requires k <= |r1| && k <= |r2|
    requires AllDrawsShaped(r1, |s.particles|, dim) && AllDrawsShaped(r2, |s.particles|, dim)
    requires Tracked(s)
    requires NeverWorsens(s.history, fitness, cfg.maximization)
    requires ReplacedOnlyOnImprovement(s.history, fitness, cfg.maximization)
    ensures Tracked(Run(s, dim, fitness, cfg, r1, r2, k))
    ensures NeverWorsens(Run(s, dim, fitness, cfg, r1, r2, k).history, fitness, cfg.maximization)
    ensures ReplacedOnlyOnImprovement(Run(s, dim, fitness, cfg, r1, r2, k).history, fitness, cfg.maximization)
    ensures NoWorse(fitness(Run(s, dim, fitness, cfg, r1, r2, k).globalBest.repr), fitness(s.globalBest.repr), cfg.maximization)
  {
    hide Iterate;
    if k > 0 {
      RunGlobalBestNeverWorsens(s, dim, fitness, cfg, r1, r2, k - 1);
      var prev := Run(s, dim, fitness, cfg, r1, r2, k - 1);
      IterateKeepsHistoryOrdered(prev, dim, fitness, cfg, r1[k - 1], r2[k - 1]);
    }
  }

  /** The state a run of `n` iterations ends in, from the particles `init`
      and the initial global best chosen among them. */
  ghost function Outcome(init: seq<State>, fitness: Vector -> real, cfg: Config, r1: seq<seq<Vector>>, r2: seq<seq<Vector>>, n: nat): Swarm
    requires |init| > 0 && forall i :: 0 <= i < |init| ==> Shaped(init[i], |init[0].repr|)
    requires n <= |r1| && n <= |r2|
    requires AllDrawsShaped(r1, |init|, |init[0].repr|) && AllDrawsShaped(r2, |init|, |init[0].repr|)
  {
    var best := InitialBest(init, fitness, cfg.maximization);
    var i :| 0 <= i < |init| && init[i] == best;
    assert Shaped(init[i], |init[0].repr|);
    Run(Swarm(init, best, []), |init[0].repr|, fitness, cfg, r1, r2, n)
  }

  /** What a run promises about its history: one entry per iteration, the
      last one the returned best, none worse than the one before it, each
      either a repeat or a strict improvement, and none worse than the
      initial global best. */
  lemma OutcomeProperties(init: seq<State>, fitness: Vector -> real, cfg: Config, r1: seq<seq<Vector>>, r2: seq<seq<Vector>>, n: nat)
    requires |init| > 0 && forall i :: 0 <= i < |init| ==> Shaped(init[i], |init[0].repr|)
    requires n <= |r1| && n <= |r2|
    requires AllDrawsShaped(r1, |init|, |init[0].repr|) && AllDrawsShaped(r2, |init|, |init[0].repr|)
    ensures |Outcome(init, fitness, cfg, r1, r2, n).history| == n
    ensures n == 0 ==> Outcome(init, fitness, cfg, r1, r2, n).globalBest == InitialBest(init, fitness, cfg.maximization)
    ensures Tracked(Outcome(init, fitness, cfg, r1, r2, n))
    ensures NeverWorsens(Outcome(init, fitness, cfg, r1, r2, n).history, fitness, cfg.maximization)
    ensures ReplacedOnlyOnImprovement(Outcome(init, fitness, cfg, r1, r2, n).history, fitness, cfg.maximization)
    ensures NoWorse(fitness(Outcome(init, fitness, cfg, r1, r2, n).globalBest.repr),
                    fitness(InitialBest(init, fitness, cfg.maximization).repr), cfg.maximization)
  {
    var s0 := Swarm(init, InitialBest(init, fitness, cfg.maximization), []);
    RunHistoryLength(s0, |init[0].repr|, fitness, cfg, r1, r2, n);
    RunGlobalBestNeverWorsens(s0, |init[0].repr|, fitness, cfg, r1, r2, n);
  }

  function States(population: seq<Particle>): (r: seq<State>)
    reads set p | p in population
    ensures |r| == |population| && forall i :: 0 <= i < |population| ==> r[i] == population[i].Snapshot()
  {
    seq(|population|, i reads population requires 0 <= i < |population| => population[i].Snapshot())
  }

  /** The body of `for particle in population` (lines 37-55): position from
      the old velocity, then the new velocity, then the personal best. */
  method UpdateParticle(particle: Particle, globalBestRepr: Vector, fitness: Vector -> real, cfg: Config, r1: Vector, r2: Vector)
    requires Shaped(particle.Snapshot(), |globalBestRepr|) && |r1| == |globalBestRepr| && |r2| == |globalBestRepr|
    modifies particle
    ensures particle.Snapshot() == StepState(old(particle.Snapshot()), globalBestRepr, fitness, cfg, r1, r2)
  {
    var newPosition := Add(particle.repr, particle.velocity);
    var inertia := Scale(cfg.w, particle.velocity);
    var cognitive := Mul(Scale(cfg.c1, r1), Sub(particle.bestRepr, particle.repr));
    var social := Mul(Scale(cfg.c2, r2), Sub(globalBestRepr, particle.repr));
    particle.velocity := Add(Add(inertia, cognitive), social);
    particle.repr := newPosition;
    if fitness(particle.repr) < particle.bestFitness {
      particle.bestRepr := particle.repr;
      particle.bestFitness := fitness(particle.repr);
    }
  }

  /** The inner loop `for particle in population` (lines 33-59): every
      particle moves against the same global best. */
  method MoveParticles(population: seq<Particle>, globalBestRepr: Vector, fitness: Vector -> real, cfg: Config, r1: seq<Vector>, r2: seq<Vector>)
    requires forall i, j :: 0 <= i < j < |population| ==> population[i] != population[j]
    requires forall i :: 0 <= i < |population| ==> Shaped(population[i].Snapshot(), |globalBestRepr|)
    requires DrawsShaped(r1, |population|, |globalBestRepr|) && DrawsShaped(r2, |population|, |globalBestRepr|)
    modifies set p | p in population
    ensures States(population) == MoveAll(old(States(population)), globalBestRepr, fitness, cfg, r1, r2)
  {
    hide StepState;
    ghost var before := States(population);
    var i := 0;
    while i < |population|
      invariant 0 <= i <= |population|
      invariant forall j :: 0 <= j < i ==>
        population[j].Snapshot() == StepState(before[j], globalBestRepr, fitness, cfg, r1[j], r2[j])
      invariant forall j :: i <= j < |population| ==> population[j].Snapshot() == before[j]
    {
      UpdateParticle(population[i], globalBestRepr, fitness, cfg, r1[i], r2[i]);
      i := i + 1;
    }
  }

  /** The global-best update after the particle loop (lines 61-69): a copy
      of the population's best replaces the global best only when strictly
      better in the chosen direction. */
  method UpdateGlobalBestOf(globalBest: State, population: seq<Particle>, fitness: Vector -> real, maximization: bool)
    returns (newBest: State)
    requires |population| > 0
    ensures newBest == UpdateGlobalBest(globalBest, States(population), fitness, maximization)
  {
    newBest := globalBest;
    var current := States(population);
    var globalBestIter := current[BestIndex(Fitnesses(current, fitness), maximization)];
    if Better(fitness(globalBestIter.repr), fitness(globalBest.repr), maximization) {
      newBest := globalBestIter;
    }
  }

  /** One more iteration of a run. */
  lemma RunStep(s: Swarm, dim: nat, fitness: Vector -> real, cfg: Config, r1: seq<seq<Vector>>, r2: seq<seq<Vector>>, k: nat)
    requires SwarmShaped(s, dim)
    requires k < |r1| && k < |r2|
    requires AllDrawsShaped(r1, |s.particles|, dim) && AllDrawsShaped(r2, |s.particles|, dim)
    ensures Run(s, dim, fitness, cfg, r1, r2, k + 1) == Iterate(Run(s, dim, fitness, cfg, r1, r2, k), dim, fitness, cfg, r1[k], r2[k])
  {
  }

  /** One pass of the outer loop (lines 33-71): move every particle, then
      update the global best and append a copy of it to the history. */
  method IterateOnce(
    population: seq<Particle>, globalBest: State, globalBestHistory: seq<State>,
    fitness: Vector -> real, cfg: Config, r1: seq<seq<Vector>>, r2: seq<seq<Vector>>, iter: nat,
    ghost s0: Swarm, ghost dim: nat, ghost swarm: Swarm)
    returns (newBest: State, newHistory: seq<State>, ghost next: Swarm)
    requires forall i, j :: 0 <= i < j < |population| ==> population[i] != population[j]
    requires SwarmShaped(s0, dim) && iter < |r1| && iter < |r2|
    requires AllDrawsShaped(r1, |s0.particles|, dim) && AllDrawsShaped(r2, |s0.particles|, dim)
    requires swarm == Run(s0, dim, fitness, cfg, r1, r2, iter)
    requires States(population) == swarm.particles && globalBest == swarm.globalBest && globalBestHistory == swarm.history
    modifies set p | p in population
    ensures next == Run(s0, dim, fitness, cfg, r1, r2, iter + 1)
    ensures States(population) == next.particles && newBest == next.globalBest && newHistory == next.history
  {
    RunStep(s0, dim, fitness, cfg, r1, r2, iter);
    MoveParticles(population, globalBest.repr, fitness, cfg, r1[iter], r2[iter]);
    newBest := UpdateGlobalBestOf(globalBest, population, fitness, cfg.maximization);
    newHistory := globalBestHistory + [newBest];
    next := Iterate(swarm, dim, fitness, cfg, r1[iter], r2[iter]);
  }

  /** The outer loop `for iter in range(max_iter)` (lines 26-71), from the
      swarm `s0`: the particles as they are, the initial global best and an
      empty history. */
  method RunIterations(
    population: seq<Particle>, fitness: Vector -> real, cfg: Config, maxIter: int,
    r1: seq<seq<Vector>>, r2: seq<seq<Vector>>, initialBest: State, ghost s0: Swarm, ghost dim: nat)
    returns (globalBest: State, globalBestHistory: seq<State>)
    requires forall i, j :: 0 <= i < j < |population| ==> population[i] != population[j]
    requires States(population) == s0.particles && s0.globalBest == initialBest && s0.history == [] && SwarmShaped(s0, dim)
    requires |r1| == Iterations(maxIter) && |r2| == Iterations(maxIter)
    requires AllDrawsShaped(r1, |population|, dim) && AllDrawsShaped(r2, |population|, dim)
    modifies set p | p in population
    ensures var r := Run(s0, dim, fitness, cfg, r1, r2, Iterations(maxIter));
            States(population) == r.particles && globalBest == r.globalBest && globalBestHistory == r.history
  {
    // Only `IterateOnce`'s contract matters here, not what one pass computes.
    hide Iterate;
    ghost var swarm := s0;
    globalBest := initialBest;
    globalBestHistory := [];
    var iter := 0;
    while iter < maxIter
      invariant 0 <= iter <= Iterations(maxIter)
      invariant swarm == Run(s0, dim, fitness, cfg, r1, r2, iter)
      invariant States(population) == swarm.particles && globalBest == swarm.globalBest && globalBestHistory == swarm.history
    {
      globalBest, globalBestHistory, swarm := IterateOnce(population, globalBest, globalBestHistory, fitness, cfg, r1, r2, iter, s0, dim, swarm);
      iter := iter + 1;
    }
    assert iter == Iterations(maxIter);
  }

  /** What `particle_swarm_optimization` returns: the final global best and
      the history of global bests, one per iteration. */
  datatype Answer = Answer(globalBest: State, history: seq<State>)

  /** The `ValueError` that `min` or `max` of an empty population raises. */
  datatype EngineError = EmptyPopulation

  /** `particle_swarm_optimization(population, w, c1, c2, maximization, max_iter)`,
      with the source's default hyperparameters. `r1[t][i]` and `r2[t][i]` are
      the random vectors drawn for particle `i` in iteration `t`. The particles
      are updated in place; the answer is the final global best and its
      history, exactly as `Run` describes. */
  method ParticleSwarmOptimization(
    population: seq<Particle>, fitness: Vector -> real,
    r1: seq<seq<Vector>>, r2: seq<seq<Vector>>,
    w: real := 0.5, c1: real := 1.5, c2: real := 1.5, maximization: bool := false, maxIter: int := 100)
    returns (res: Result<Answer, EngineError>)
    requires forall i, j :: 0 <= i < j < |population| ==> population[i] != population[j]
    requires forall i :: 0 <= i < |population| ==> Shaped(population[i].Snapshot(), |population[0].repr|)
    requires |r1| == Iterations(maxIter) && |r2| == Iterations(maxIter)
    requires |population| > 0 ==>
      AllDrawsShaped(r1, |population|, |population[0].repr|) && AllDrawsShaped(r2, |population|, |population[0].repr|)
    requires forall t, i, d :: 0 <= t < |r1| && 0 <= i < |r1[t]| && 0 <= d < |r1[t][i]| ==> 0.0 <= r1[t][i][d] < 1.0
    requires forall t, i, d :: 0 <= t < |r2| && 0 <= i < |r2[t]| && 0 <= d < |r2[t][i]| ==> 0.0 <= r2[t][i][d] < 1.0
    modifies set p | p in population
    ensures res.Failure? <==> |population| == 0
    ensures res.Failure? ==> res.error == EmptyPopulation
    ensures res.Success? ==>
      var r := Outcome(old(States(population)), fitness, Config(w, c1, c2, maximization), r1, r2, Iterations(maxIter));
      States(population) == r.particles && res.value.globalBest == r.globalBest && res.value.history == r.history
    ensures res.Success? ==> |res.value.history| == Iterations(maxIter)
    ensures res.Success? && maxIter <= 0 ==>
      res.value.history == [] && res.value.globalBest == InitialBest(old(States(population)), fitness, maximization)
    ensures res.Success? && |res.value.history| > 0 ==> res.value.globalBest == res.value.history[|res.value.history| - 1]
    ensures res.Success? ==> NeverWorsens(res.value.history, fitness, maximization)
    ensures res.Success? ==> ReplacedOnlyOnImprovement(res.value.history, fitness, maximization)
    ensures res.Success? ==>
      NoWorse(fitness(res.value.globalBest.repr), fitness(InitialBest(old(States(population)), fitness, maximization).repr), maximization)
  {
    hide Iterate;
    if |population| == 0 {
      return Failure(EmptyPopulation);
    }
    var cfg := Config(w, c1, c2, maximization);
    var init := States(population);
    var globalBest := InitialBest(init, fitness, maximization);
    assert SwarmShaped(Swarm(init, globalBest, []), |init[0].repr|);
    var globalBestHistory;
    globalBest, globalBestHistory := RunIterations(population, fitness, cfg, maxIter, r1, r2, globalBest,
                                                   Swarm(init, globalBest, []), |init[0].repr|);
    assert init == old(States(population));
    OutcomeProperties(init, fitness, cfg, r1, r2, Iterations(maxIter));
    res := Success(Answer(globalBest, globalBestHistory));
  }
}
