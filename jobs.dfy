/** The records the job pipeline passes around: the stock-limit request, the
    downloaded price triple of one stock, the optimisation job whose fields
    the pipeline steps reassign, and the result record built at the end. */
module Jobs {
  import opened Wrappers

  /** How the request bounds each stock: by share count, by money, or by a
      percentage of the budget; any other type bounds nothing. */
  datatype StockLimitType = Count | Price | Percent | Other

  /** A per-stock list of limits, or one limit common to every stock. */
  datatype StockLimit = StockLimit(limitType: StockLimitType, limits: seq<int>, commonLimit: Option<int>)

  /** The prices downloaded and predicted for one stock. */
  datatype PriceData = PriceData(stockName: string, currentPrice: real, predictPrice: real, realFuturePrice: real)

  /** The job states the pipeline sets, with those the job record declares. */
  datatype JobStatus = Created | Started | InProgress | Canceled | PreparingData | Optimization | Finished

  /** The result record, its fields in the order the job's values fill them. */
  datatype OptimizationResult = OptimizationResult(
    id: string,
    stockNames: seq<string>,
    maxStockCountList: seq<int>,
    budget: int,
    predictPeriodDays: int,
    totalCost: real,
    totalPredictedCost: real,
    totalRealCost: real,
    profit: real,
    profitPercent: real,
    realProfit: real,
    realProfitPercent: real,
    currentPrices: seq<real>,
    predictedPrices: seq<real>,
    realPrices: seq<real>,
    bestSet: seq<int>,
    byStockCost: seq<real>,
    byStockPredictedCost: seq<real>,
    byStockRealCost: seq<real>)

  /** The six parallel lists of a job, in the order the zero-limit filter
      reassigns them. */
  datatype JobLists = JobLists(
    maxStockCountList: seq<int>,
    stockNames: seq<string>,
    currentPrices: seq<real>,
    bestSet: seq<int>,
    realPrices: seq<real>,
    predictedPrices: seq<real>)

  /** An optimisation job: the request, then the lists the steps fill in. */
  class Job {
    var id: string
    var stockNames: seq<string>
    var stockLimit: StockLimit
    var budget: int
    var predictPeriodDays: int
    var isBacktest: bool
    var maxStockCountList: seq<int>
    var currentPrices: seq<real>
    var predictedPrices: seq<real>
    var realPrices: seq<real>
    var bestSet: seq<int>
    var status: JobStatus

    /** A new job holds the request and no data yet, with the record's
        default status. */
    constructor(id: string, stockNames: seq<string>, stockLimit: StockLimit, budget: int, predictPeriodDays: int, isBacktest: bool)
      ensures this.id == id && this.stockNames == stockNames && this.stockLimit == stockLimit
      ensures this.budget == budget && this.predictPeriodDays == predictPeriodDays && this.isBacktest == isBacktest
      ensures maxStockCountList == [] && currentPrices == [] && predictedPrices == [] && realPrices == [] && bestSet == []
      ensures status == Started
    {
      this.id := id;
      this.stockNames := stockNames;
      this.stockLimit := stockLimit;
      this.budget := budget;
      this.predictPeriodDays := predictPeriodDays;
      this.isBacktest := isBacktest;
      maxStockCountList := [];
      currentPrices := [];
      predictedPrices := [];
      realPrices := [];
      bestSet := [];
      status := Started;
    }

    /** The job's six parallel lists. */
    function Lists(): JobLists
      reads this
    {
      JobLists(maxStockCountList, stockNames, currentPrices, bestSet, realPrices, predictedPrices)
    }
  }
}
