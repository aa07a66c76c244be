/** The newest allocator (the optimizer adapter): its scoring of an allocation
    against the budget, its reflection mutation, the toolbox it builds and the
    evaluated initial population it hands to DEAP's `eaSimple`. */
module Optimizer {
  import opened Wrappers
  import opened Arith
  import opened Genes
  import Evolution

  const NUMBER_OF_POPULATION: nat := 70
  /** `tuple(FUN_WEIGHTS.values())`: the cost weight, then the profit weight. */
  const FUN_WEIGHTS: (real, real) := (-1.0, 1.0)

  /** The objective pair `(budget deviation, expected profit)`. */
  datatype Fitness = Fitness(deviation: real, profit: real)

  /** The score of an allocation that costs more than the budget. */
  const INFEASIBLE: Fitness := Fitness(100000000000.0, -10000000000.0)

  /** `__evaluate`: an allocation over budget gets the sentinel; otherwise the
      deviation is what is left of the budget. */
  function Evaluate(individual: seq<int>, predictedPrices: seq<real>, prices: seq<real>, budget: real): (f: Fitness)
    ensures Dot(prices, individual) > budget ==> f == INFEASIBLE
    ensures Dot(prices, individual) <= budget ==> f.deviation == budget - Dot(prices, individual) >= 0.0
  {
    var predictedCost := Dot(predictedPrices, individual);
    var cost := Dot(prices, individual);
    if cost > budget then INFEASIBLE
    else Fitness(Abs(budget - cost), predictedCost - cost)
  }

  /** The profit of an allocation within budget is the sum over stocks of the
      predicted gain per share times the share count. */
  lemma FeasibleProfit(individual: seq<int>, predictedPrices: seq<real>, prices: seq<real>, budget: real)
    requires |predictedPrices| == |prices|
    requires Dot(prices, individual) <= budget
    ensures Evaluate(individual, predictedPrices, prices, budget).profit == Dot(Diff(predictedPrices, prices), individual)
  {
    DotOfDiff(predictedPrices, prices, individual);
  }

  /** Raising one predicted price never lowers the profit of an allocation
      that holds a non-negative count of that stock. */
  lemma RaisingPredictionNeverLowersProfit(individual: seq<int>, predictedPrices: seq<real>, prices: seq<real>, budget: real, k: nat, v: real)
    requires k < |predictedPrices| && k < |individual| && individual[k] >= 0
    requires v >= predictedPrices[k]
    ensures Evaluate(individual, predictedPrices[k := v], prices, budget).profit
         >= Evaluate(individual, predictedPrices, prices, budget).profit
  {
    DotUpdate(predictedPrices, individual, k, v);
    assert (v - predictedPrices[k]) * individual[k] as real >= 0.0;
  }

  /** Buying nothing is feasible for any non-negative budget and scores the
      whole budget as deviation and no profit. */
  lemma EmptyAllocationScore(individual: seq<int>, predictedPrices: seq<real>, prices: seq<real>, budget: real)
    requires AllZero(individual) && budget >= 0.0
    ensures Evaluate(individual, predictedPrices, prices, budget) == Fitness(budget, 0.0)
  {
    DotOfZeroCounts(predictedPrices, individual);
    DotOfZeroCounts(prices, individual);
  }

  /** The fitness DEAP compares: each objective times its weight. */
  function Weighted(weights: (real, real), f: Fitness): (real, real)
  {
    (weights.0 * f.deviation, weights.1 * f.profit)
  }

  /** Under the weights `(-1.0, 1.0)`, any allocation within a budget below
      the sentinel deviation beats every allocation over budget. */
  lemma FeasibleBeatsInfeasible(individual: seq<int>, predictedPrices: seq<real>, prices: seq<real>, budget: real)
    requires AllNonNegativeReals(prices) && AllNonNegative(individual)
    requires Dot(prices, individual) <= budget < INFEASIBLE.deviation
    ensures LexGreater(Weighted(FUN_WEIGHTS, Evaluate(individual, predictedPrices, prices, budget)), Weighted(FUN_WEIGHTS, INFEASIBLE))
  {
    DotNonNegative(prices, individual);
  }

  /** The local `mutFlipBit`'s step on one gene: reflect it within `[0, max]`. */
  function Reflect(gene: int, maxCount: int): (r: int)
    ensures 0 <= gene <= maxCount ==> 0 <= r <= maxCount
  {
    maxCount - gene
  }

  /** Reflecting a gene twice restores it. */
  lemma ReflectTwice(gene: int, maxCount: int)
    ensures Reflect(Reflect(gene, maxCount), maxCount) == gene
  {
  }

  /** The local `mutFlipBit` on a whole gene list: gene `i` is reflected when
      its coin is below `indpb`. */
  function FlipBits(genes: seq<int>, maxCounts: seq<int>, coins: seq<real>, indpb: real): (r: seq<int>)
    requires |genes| <= |maxCounts|
    ensures |r| == |genes|
  {
    seq(|genes|, i requires 0 <= i < |genes| => if Evolution.CoinAt(coins, i) < indpb then Reflect(genes[i], maxCounts[i]) else genes[i])
  }

  /** Each gene is either unchanged or reflected within its maximum. */
  lemma FlipBitsChangesByReflection(genes: seq<int>, maxCounts: seq<int>, coins: seq<real>, indpb: real, i: nat)
    requires |genes| <= |maxCounts| && i < |genes|
    ensures var r := FlipBits(genes, maxCounts, coins, indpb);
      r[i] == genes[i] || r[i] == maxCounts[i] - genes[i]
  {
  }

  /** Reflection keeps every gene within its bound. */
  lemma FlipBitsKeepsBounds(genes: seq<int>, maxCounts: seq<int>, coins: seq<real>, indpb: real)
    requires Bounded(genes, maxCounts)
    ensures Bounded(FlipBits(genes, maxCounts, coins, indpb), maxCounts)
  {
    var r := FlipBits(genes, maxCounts, coins, indpb);
    forall i | 0 <= i < |r| ensures 0 <= r[i] <= maxCounts[i] {
      assert r[i] == genes[i] || r[i] == Reflect(genes[i], maxCounts[i]);
    }
  }

  /** With the same coins, mutating twice restores the gene list. */
  lemma FlipBitsTwice(genes: seq<int>, maxCounts: seq<int>, coins: seq<real>, indpb: real)
    requires |genes| <= |maxCounts|
    ensures FlipBits(FlipBits(genes, maxCounts, coins, indpb), maxCounts, coins, indpb) == genes
  {
    var once := FlipBits(genes, maxCounts, coins, indpb);
    var twice := FlipBits(once, maxCounts, coins, indpb);
    forall i | 0 <= i < |genes| ensures twice[i] == genes[i] {
      ReflectTwice(genes[i], maxCounts[i]);
    }
  }

  /** The local `mutFlipBit`, overwriting `individual[i]` in place. */
  method MutFlipBit(individual: array<int>, maxCounts: seq<int>, coins: seq<real>, indpb: real)
    requires individual.Length <= |maxCounts|
    modifies individual
    ensures individual[..] == FlipBits(old(individual[..]), maxCounts, coins, indpb)
  {
    ghost var before := individual[..];
    for i := 0 to individual.Length
      invariant forall j :: 0 <= j < i ==> individual[j] == FlipBits(before, maxCounts, coins, indpb)[j]
      invariant forall j :: i <= j < individual.Length ==> individual[j] == before[j]
    {
      if Evolution.CoinAt(coins, i) < indpb {
        individual[i] := maxCounts[i] - individual[i];
      }
    }
  }

  /** The mutation operator a toolbox registers. */
  datatype Mutator = DeapMutFlipBit | LocalReflection

  /** The configuration `__create_toolbox` registers: objective weights,
      uniform crossover with per-gene probability, the mutation operator with
      its per-gene probability, and the tournament size. */
  datatype Toolbox = Toolbox(weights: (real, real), mateIndpb: real, mutator: Mutator, mutateIndpb: real, tournamentSize: nat)

  function CreateToolbox(weights: (real, real), mutator: Mutator): Toolbox
  {
    Toolbox(weights, 0.1, mutator, 0.4, 3)
  }

  /** The toolbox `optimize` builds. */
  function OptimizeToolbox(): Toolbox
  {
    CreateToolbox(FUN_WEIGHTS, DeapMutFlipBit)
  }

  /** The search mutates with DEAP's own `mutFlipBit`, not the local
      reflection, and weighs the deviation down and the profit up, in the
      order `__evaluate` returns them. */
  lemma OptimizeToolboxWiring(f: Fitness)
    ensures OptimizeToolbox().mutator == DeapMutFlipBit
    ensures Weighted(OptimizeToolbox().weights, f) == (-f.deviation, f.profit)
  {
  }

  /** `__optimize_internal` before `eaSimple`: NUMBER_OF_POPULATION
      individuals from the generator, each then evaluated. `randint(0, m)`
      raises for a negative maximum, so then there is no population. */
  method InitialPopulation(maxCounts: seq<int>, predictedPrices: seq<real>, prices: seq<real>, budget: real, draws: seq<seq<nat>>)
    returns (pop: Option<seq<Evolution.Individual<Fitness>>>)
    ensures pop.Some? <==> forall i :: 0 <= i < |maxCounts| ==> maxCounts[i] >= 0
    ensures pop.Some? ==> |pop.value| == NUMBER_OF_POPULATION
    ensures pop.Some? ==> forall i :: 0 <= i < |pop.value| ==>
      Some(pop.value[i].genes) == GenOneIndividual(maxCounts, IndividualDrawsAt(draws, i))
      && Bounded(pop.value[i].genes, maxCounts)
      && pop.value[i].fitness == Some(Evaluate(pop.value[i].genes, predictedPrices, prices, budget))
  {
    if exists i :: 0 <= i < |maxCounts| && maxCounts[i] < 0 {
      return None;
    }
    var individuals := new Evolution.Individual<Fitness>[NUMBER_OF_POPULATION](
      i => Evolution.Individual(GenOneIndividual(maxCounts, IndividualDrawsAt(draws, i)).GetOr([]), None));
    Evolution.EvaluateAll(individuals, g => Evaluate(g, predictedPrices, prices, budget));
    pop := Some(individuals[..]);
  }
}
