/** The first allocator script: its `gen_one_individual` and `evaluate` are
    those of the services allocator (`Genes.GenOneIndividual`,
    `StockOptimize.Evaluate`); what it adds is the report `analyze` computes
    for the best individual. */
module LegacyOptimize {
  import opened Arith

  /** The figures `analyze` derives from the best gene list. */
  datatype Analysis = Analysis(
    bestSet: seq<int>,
    costByStock: seq<real>,
    profitByStock: seq<real>,
    profit: real,
    cost: real,
    netProfit: real)

  /** `analyze`: the best gene list is the first element of the best
      individual; per-stock cost and future value, their totals, and the
      reported profit. */
  function Analyze(bestIndividual: seq<seq<int>>, valueData: seq<real>, priceData: seq<real>): (a: Analysis)
    requires |bestIndividual| > 0
    ensures a.bestSet == bestIndividual[0]
    ensures a.costByStock == Products(priceData, a.bestSet) && a.profitByStock == Products(valueData, a.bestSet)
    ensures a.profit == Sum(a.profitByStock) && a.cost == Sum(a.costByStock)
    ensures a.netProfit == a.profit - a.cost
  {
    var bestSet := bestIndividual[0];
    var costByStock := Products(priceData, bestSet);
    var profitByStock := Products(valueData, bestSet);
    var profit := Dot(valueData, bestSet);
    var cost := Dot(priceData, bestSet);
    SumOfProducts(valueData, bestSet);
    SumOfProducts(priceData, bestSet);
    Analysis(bestSet, costByStock, profitByStock, profit, cost, profit - cost)
  }

  /** The reported profit of an empty allocation is zero. */
  lemma AnalyzeEmptyAllocation(bestIndividual: seq<seq<int>>, valueData: seq<real>, priceData: seq<real>)
    requires |bestIndividual| > 0 && AllZero(bestIndividual[0])
    ensures Analyze(bestIndividual, valueData, priceData).netProfit == 0.0
  {
    DotOfZeroCounts(valueData, bestIndividual[0]);
    DotOfZeroCounts(priceData, bestIndividual[0]);
  }
}
