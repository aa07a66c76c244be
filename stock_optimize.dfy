/** The services allocator: an individual wraps one gene list, its score is
    `(expected value, budget deviation)`, and `optimize(job)` runs the explicit
    generational loop of the `Evolution` module on the job's lists. */
module StockOptimize {
  import opened Wrappers
  import opened Arith
  import opened Genes
  import Evolution

  /** `tuple(FUN_WEIGHTS.values())`: the profit weight, then the cost weight. */
  const FUN_WEIGHTS: (real, real) := (1.0, -1.0)

  /** The objective pair `(expected value, budget deviation)`. */
  datatype Fitness = Fitness(profit: real, deviation: real)

  /** The score of an allocation that costs more than the budget. */
  const INFEASIBLE: Fitness := Fitness(0.0, 100000000000000000000.0)

  /** `toolbox.individual`: `initRepeat` with `n=1` wraps exactly one
      generated gene list. */
  function MakeIndividual(maxCounts: seq<int>, draws: seq<nat>): (individual: Option<seq<seq<int>>>)
    ensures individual.Some? <==> forall i :: 0 <= i < |maxCounts| ==> maxCounts[i] >= 0
    ensures individual.Some? ==> |individual.value| == 1 && Bounded(individual.value[0], maxCounts)
  {
    match GenOneIndividual(maxCounts, draws)
    case None => None
    case Some(genes) => Some([genes])
  }

  /** `evaluate`: the gene list is `individual[0]`; an allocation over budget
      gets the sentinel, otherwise the deviation is what is left of the budget. */
  function Evaluate(individual: seq<seq<int>>, valueData: seq<real>, priceData: seq<real>, budget: real): (f: Fitness)
    requires |individual| > 0
    ensures Dot(priceData, individual[0]) > budget ==> f == INFEASIBLE
    ensures Dot(priceData, individual[0]) <= budget ==>
      f.profit == Dot(valueData, individual[0]) && f.deviation == budget - Dot(priceData, individual[0]) >= 0.0
  {
    var genes := individual[0];
    var profit := Dot(valueData, genes);
    var sumPrice := Dot(priceData, genes);
    if sumPrice > budget then INFEASIBLE
    else Fitness(profit, Abs(budget - sumPrice))
  }

  /** Only the first gene list of an individual is scored. */
  lemma EvaluateReadsFirstGeneList(a: seq<seq<int>>, b: seq<seq<int>>, valueData: seq<real>, priceData: seq<real>, budget: real)
    requires |a| > 0 && |b| > 0 && a[0] == b[0]
    ensures Evaluate(a, valueData, priceData, budget) == Evaluate(b, valueData, priceData, budget)
  {
  }

  /** The fitness DEAP compares: each objective times its weight. */
  function Weighted(weights: (real, real), f: Fitness): (real, real)
  {
    (weights.0 * f.profit, weights.1 * f.deviation)
  }

  /** Under the weights `(1.0, -1.0)`, with non-negative prices, predicted
      values and counts, an allocation within a budget below the sentinel
      deviation beats every allocation over budget. */
  lemma FeasibleBeatsInfeasible(individual: seq<seq<int>>, valueData: seq<real>, priceData: seq<real>, budget: real)
    requires |individual| > 0
    requires AllNonNegativeReals(valueData) && AllNonNegativeReals(priceData) && AllNonNegative(individual[0])
    requires Dot(priceData, individual[0]) <= budget < INFEASIBLE.deviation
    ensures LexGreater(Weighted(FUN_WEIGHTS, Evaluate(individual, valueData, priceData, budget)), Weighted(FUN_WEIGHTS, INFEASIBLE))
  {
    DotNonNegative(valueData, individual[0]);
    DotNonNegative(priceData, individual[0]);
  }

  /** The generator `toolbox.population` calls, one draw list per individual. */
  function Generator(maxCounts: seq<int>, individualDraws: seq<seq<nat>>): nat -> seq<int>
  {
    i => GenOneIndividual(maxCounts, IndividualDrawsAt(individualDraws, i)).GetOr([])
  }

  /** `evaluate_func_wrapper` on the gene list the loop holds. */
  function Evaluator(predictedPrices: seq<real>, currentPrices: seq<real>, budget: real): seq<int> -> Fitness
  {
    genes => Evaluate([genes], predictedPrices, currentPrices, budget)
  }

  /** Every generated individual has one gene per max count. */
  lemma InitialPopulationShape(maxCounts: seq<int>, individualDraws: seq<seq<nat>>, eval: seq<int> -> Fitness)
    requires forall i :: 0 <= i < |maxCounts| ==> maxCounts[i] >= 0
    ensures Evolution.UniformLength(Evolution.InitialPopulation(Generator(maxCounts, individualDraws), eval), |maxCounts|)
  {
    var pop := Evolution.InitialPopulation(Generator(maxCounts, individualDraws), eval);
    forall i | 0 <= i < |pop| ensures |pop[i].genes| == |maxCounts| {
      assert pop[i].genes == Generator(maxCounts, individualDraws)(i);
    }
  }

  /** The gene list of the final-population member `selBest` returns, after
      the generational loop has run on the evaluated initial population. */
  function Search(maxCounts: seq<int>, predictedPrices: seq<real>, currentPrices: seq<real>, budget: real,
                  individualDraws: seq<seq<nat>>, draws: seq<Evolution.GenerationDraws>, bestPick: nat): seq<int>
  {
    Evolution.Evolve(
      Evolution.InitialPopulation(Generator(maxCounts, individualDraws), Evaluator(predictedPrices, currentPrices, budget)),
      draws, Evolution.NUMBER_OF_ITERATIONS)[bestPick % Evolution.POPULATION_SIZE].genes
  }

  /** The gene list the search returns has one gene per max count. */
  lemma SearchKeepsGeneLength(maxCounts: seq<int>, predictedPrices: seq<real>, currentPrices: seq<real>, budget: real,
                              individualDraws: seq<seq<nat>>, draws: seq<Evolution.GenerationDraws>, bestPick: nat)
    requires forall i :: 0 <= i < |maxCounts| ==> maxCounts[i] >= 0
    ensures |Search(maxCounts, predictedPrices, currentPrices, budget, individualDraws, draws, bestPick)| == |maxCounts|
  {
    var initial := Evolution.InitialPopulation(Generator(maxCounts, individualDraws), Evaluator(predictedPrices, currentPrices, budget));
    InitialPopulationShape(maxCounts, individualDraws, Evaluator(predictedPrices, currentPrices, budget));
    Evolution.EvolveKeepsGeneLength(initial, draws, Evolution.NUMBER_OF_ITERATIONS, |maxCounts|);
  }

  /** `optimize(job)`: the gene list of the final-population member that
      `selBest` picks (the index `bestPick` stands for that choice).
      `randint(0, m)` raises for a negative maximum, so then there is none. */
  method Optimize(maxCounts: seq<int>, predictedPrices: seq<real>, currentPrices: seq<real>, budget: real,
                  individualDraws: seq<seq<nat>>, draws: seq<Evolution.GenerationDraws>, bestPick: nat)
    returns (bestSet: Option<seq<int>>)
    ensures bestSet.Some? <==> forall i :: 0 <= i < |maxCounts| ==> maxCounts[i] >= 0
    ensures bestSet.Some? ==> |bestSet.value| == |maxCounts|
    ensures bestSet.Some? ==>
      bestSet.value == Search(maxCounts, predictedPrices, currentPrices, budget, individualDraws, draws, bestPick)
  {
    if exists i :: 0 <= i < |maxCounts| && maxCounts[i] < 0 {
      return None;
    }
    var gen := Generator(maxCounts, individualDraws);
    var eval := Evaluator(predictedPrices, currentPrices, budget);
    var best, bestFitness := Evolution.Optimize(gen, eval, draws, bestPick);
    InitialPopulationShape(maxCounts, individualDraws, eval);
    Evolution.EvolveKeepsGeneLength(Evolution.InitialPopulation(gen, eval), draws, Evolution.NUMBER_OF_ITERATIONS, |maxCounts|);
    bestSet := Some(best.genes);
  }
}
