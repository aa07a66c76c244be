/** `construct_result`: the result record of a finished job, with per-stock and
    total costs at current, predicted and real prices, rounded to cents. */
module Analyze {
  import opened Wrappers
  import opened Arith
  import opened Jobs

  /** The only failure: the profit percentages divide by a zero total cost. */
  datatype ResultError = ZeroTotalCost

  /** `[round(x * y, 2) for x, y in zip(xs, counts)]`. */
  function RoundedProducts(xs: seq<real>, counts: seq<int>): (r: seq<real>)
    ensures |r| == Min(|xs|, |counts|)
    ensures forall i :: 0 <= i < |r| ==> r[i] == Round2(xs[i] * counts[i] as real)
  {
    var products := Products(xs, counts);
    seq(|products|, i requires 0 <= i < |products| => Round2(products[i]))
  }

  /** `[0 for p in xs]`. */
  function ZerosLike(xs: seq<real>): (r: seq<real>)
    ensures |r| == |xs| && forall i :: 0 <= i < |r| ==> r[i] == 0.0
  {
    seq(|xs|, _ => 0.0)
  }

  /** `round(sum(x * y for x, y in zip(xs, counts)), 2)`: the rounded total
      of the unrounded per-stock products. */
  function RoundedTotal(xs: seq<real>, counts: seq<int>): (t: real)
    ensures t == Round2(Sum(Products(xs, counts)))
  {
    SumOfProducts(xs, counts);
    Round2(Dot(xs, counts))
  }

  /** `round(gain / total * 100, 2)`. */
  function Percent(gain: real, total: real): real
    requires total != 0.0
  {
    Round2(gain / total * 100.0)
  }

  /** `construct_result(job)`. Both percentages are computed before the
      backtest check, so a zero total cost fails whether or not the job is a
      backtest. */
  function ConstructResult(job: Job): (r: Result<OptimizationResult, ResultError>)
    reads job
    ensures r.Err? <==> RoundedTotal(job.currentPrices, job.bestSet) == 0.0
    ensures r.Ok? ==>
      var o := r.value;
      o.id == job.id && o.stockNames == job.stockNames && o.maxStockCountList == job.maxStockCountList
      && o.budget == job.budget && o.predictPeriodDays == job.predictPeriodDays
      && o.currentPrices == job.currentPrices && o.predictedPrices == job.predictedPrices && o.bestSet == job.bestSet
    ensures r.Ok? ==>
      var o := r.value;
      o.byStockCost == RoundedProducts(job.currentPrices, job.bestSet)
      && o.byStockPredictedCost == RoundedProducts(job.predictedPrices, job.bestSet)
      && o.totalCost == RoundedTotal(job.currentPrices, job.bestSet)
      && o.totalPredictedCost == RoundedTotal(job.predictedPrices, job.bestSet)
      && o.profit == Round2(o.totalPredictedCost - o.totalCost)
      && o.profitPercent == Percent(o.totalPredictedCost - o.totalCost, o.totalCost)
    ensures r.Ok? && !job.isBacktest ==>
      var o := r.value;
      o.realPrices == ZerosLike(job.currentPrices) && o.byStockRealCost == ZerosLike(job.currentPrices)
      && o.totalRealCost == 0.0 && o.realProfit == 0.0 && o.realProfitPercent == 0.0
    ensures r.Ok? && job.isBacktest ==>
      var o := r.value;
      o.realPrices == job.realPrices && o.byStockRealCost == RoundedProducts(job.realPrices, job.bestSet)
      && o.totalRealCost == RoundedTotal(job.realPrices, job.bestSet)
      && o.realProfit == o.totalRealCost - o.totalCost
      && o.realProfitPercent == Percent(o.totalRealCost - o.totalCost, o.totalCost)
  {
    var byStockCost := RoundedProducts(job.currentPrices, job.bestSet);
    var byStockPredictedCost := RoundedProducts(job.predictedPrices, job.bestSet);
    var byStockRealCost := RoundedProducts(job.realPrices, job.bestSet);
    var totalPredictedCost := RoundedTotal(job.predictedPrices, job.bestSet);
    var totalCost := RoundedTotal(job.currentPrices, job.bestSet);
    var totalRealCost := RoundedTotal(job.realPrices, job.bestSet);
    if totalCost == 0.0 then Err(ZeroTotalCost)
    else
      var profit := Round2(totalPredictedCost - totalCost);
      var profitPercent := Percent(totalPredictedCost - totalCost, totalCost);
      var realProfit := totalRealCost - totalCost;
      var realProfitPercent := Percent(totalRealCost - totalCost, totalCost);
      if job.isBacktest then
        Ok(OptimizationResult(job.id, job.stockNames, job.maxStockCountList, job.budget, job.predictPeriodDays,
                              totalCost, totalPredictedCost, totalRealCost,
                              profit, profitPercent, realProfit, realProfitPercent,
                              job.currentPrices, job.predictedPrices, job.realPrices, job.bestSet,
                              byStockCost, byStockPredictedCost, byStockRealCost))
      else
        Ok(OptimizationResult(job.id, job.stockNames, job.maxStockCountList, job.budget, job.predictPeriodDays,
                              totalCost, totalPredictedCost, 0.0,
                              profit, profitPercent, 0.0, 0.0,
                              job.currentPrices, job.predictedPrices, ZerosLike(job.currentPrices), job.bestSet,
                              byStockCost, byStockPredictedCost, ZerosLike(job.currentPrices)))
  }

  /** A job whose best set buys nothing has no result, backtest or not. */
  lemma EmptyBestSetFails(job: Job)
    requires AllZero(job.bestSet)
    ensures ConstructResult(job).Err?
  {
    DotOfZeroCounts(job.currentPrices, job.bestSet);
    Round2OfCents(0);
  }

  /** With non-negative prices and counts a job that has a result spent a
      positive amount. */
  lemma TotalCostPositive(job: Job)
    requires AllNonNegativeReals(job.currentPrices) && AllNonNegative(job.bestSet)
    requires ConstructResult(job).Ok?
    ensures ConstructResult(job).value.totalCost > 0.0
  {
    DotNonNegative(job.currentPrices, job.bestSet);
    Round2NonNegative(Dot(job.currentPrices, job.bestSet));
  }
}
