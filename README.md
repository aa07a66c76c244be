# portfolio_optimization, modelled in Dafny

The repository chooses how many shares of each stock to buy within a budget.
The choice is made by a genetic search over integer vectors, and the code
contains three versions of it:

- the first script, `stock_optimize.py`;
- the services allocator, `src/services/stock_optimize.py`, whose generation loop is copied in `utils.py`;
- the newest optimizer adapter, `src/adapter/out/optimization/optimizer.py`.

Every version scores an allocation by two zipped sums over parallel price
lists. An allocation that costs more than the budget gets a fixed dominated
sentinel score.

Around the search sits a job pipeline, run as:

1. download and predict prices, and drop the stocks predicted to fall;
2. drop every stock whose limit or current price is zero;
3. turn the stock-limit request into per-stock maximum counts;
4. drop zeros again;
5. optimise;
6. build a result record with per-stock and total costs.

Two small helpers complete the core: a counter-to-index reduction in the stock
picker, and the growth test in the forecast analyser.

Modules:

- `Wrappers`: Option and Result.
- `Arith`: these arithmetic pieces:
  - Python's `sum(x*y for x, y in zip(...))` (`Dot`);
  - `int()` truncation toward zero (`TruncToInt`);
  - `round(x, 2)` as round-half-even on exact reals (`Round2`).
- `Genes`: the bounded random individual.
  - `random.randint(0, m)` is a supplied raw draw `d`, reduced to `d % (m + 1)`.
  - A negative `m` raises in Python; here it gives `None`.
- `Evolution`: the explicit generation loop. Every random draw is an input:
  - tournament picks;
  - the `random.random()` coins;
  - two-point cut points;
  - mutation changes.

  DEAP's operators are abstract steps with the shapes their call sites rely on.
  The loop itself is imperative, over arrays:
  - `EvaluateAll`;
  - `SelectAndClone`;
  - `CrossAdjacent`, with `MateInPlace`;
  - `MutateEach`;
  - `RunGeneration`;
  - `Optimize`.

  Each method is proved equal to a function on sequences (`Evolve`,
  `Generation`, `Crossover`, `Mutation`). The lemmas about those functions carry
  the properties.
- `Optimizer`: the newest adapter. Its pieces:
  - scoring;
  - the in-place reflection mutation;
  - toolbox wiring;
  - the evaluated initial population.
- `StockOptimize`: the services allocator, wired onto `Evolution`.
- `LegacyOptimize`: the first script's `analyze` report.
- `Jobs`: the job record, a class whose fields the steps reassign, and the value records.
- `StockLimitTransformer`, `Etl`, `Analyze`: the pipeline steps.
- `StockPicker`, `Analyzer`: the helpers.

Notes on the code, which the model follows:

- The code holds three optimiser versions, listed above.
- `src/etl.py` imports `optimize` from `adapter.out.optimization.stock_optimize`.
  That module is not part of this model. The model assumes it behaves like the
  services `optimize` of `src/services/stock_optimize.py`, which returns
  `best_solution[0][0]`, and the optimisation step uses that one. This is an
  assumption: the newest adapter, `optimizer.py:63`, returns
  `tools.selBest(best_solution[0], 1)[0]` instead.
- The job record in `src/data.py` differs from the one the pipeline uses:
  - it lacks `stock_limit`, `is_backtest` and `real_prices`;
  - it names its predictions `predicted_data`, not `predicted_prices`;
  - it takes the count and price lists as constructor arguments;
  - it lacks the states `PREPARING_DATA` and `OPTIMIZATION`.

  `Jobs` follows the pipeline: the fields and states `src/etl.py` uses, and
  the constructor call of `create_optimization_task_step`.
- The count filter of `download_and_predict_step` (`src/etl.py:84-91`) passes
  the two-argument `filter_max_stock_count` to `filter`, which calls it with
  one `(name, count)` pair. Every non-empty zip therefore raises TypeError.
  The model follows the code and records the bug under "## Findings".
- `src/logic/data/data.py` declares `StockData` with four fields, but
  `analyses` builds it with seven. `Analyzer.StockData` has the seven that
  `analyses` passes.

## Model

| member | source | states |
|---|---|---|
| Genes.GenOneIndividual | src/adapter/out/optimization/optimizer.py:14-15 | an individual exists iff every max count is non-negative (randint raises otherwise); it has one gene per max count, each in [0, max]; a draw already in range is taken as is; the same generator is repeated at src/services/stock_optimize.py:17-18 and at stock_optimize.py:5-6 |
| Genes.RandInt | src/adapter/out/optimization/optimizer.py:15 | randint(0, m) lies in [0, m] and returns an in-range draw unchanged |
| Genes.GeneratesEveryBoundedAllocation | src/adapter/out/optimization/optimizer.py:14-15 | every allocation bounded by the max counts can be generated by some draws |
| Optimizer.Evaluate | src/adapter/out/optimization/optimizer.py:18-24 | over budget gives exactly (100000000000, -10000000000); otherwise the deviation equals budget - cost and is non-negative |
| Optimizer.FeasibleProfit | src/adapter/out/optimization/optimizer.py:19-24 | within budget, the profit is the zipped sum of (predicted - price) times count |
| Optimizer.RaisingPredictionNeverLowersProfit | src/adapter/out/optimization/optimizer.py:19-24 | raising one predicted price never lowers the profit when that stock's count is non-negative |
| Optimizer.EmptyAllocationScore | src/adapter/out/optimization/optimizer.py:19-24 | the all-zero allocation is feasible for any budget >= 0 and scores (budget, 0) |
| Optimizer.FeasibleBeatsInfeasible | src/adapter/out/optimization/optimizer.py:11-24 | under weights (-1, 1), with non-negative prices and counts and a budget below the sentinel, a feasible allocation beats the sentinel lexicographically |
| Optimizer.Reflect | src/adapter/out/optimization/optimizer.py:57 | reflecting a gene in [0, max] stays in [0, max] |
| Optimizer.ReflectTwice | src/adapter/out/optimization/optimizer.py:57 | reflecting twice restores the gene |
| Optimizer.FlipBits | src/adapter/out/optimization/optimizer.py:54-59 | the local mutation keeps the length of the gene list |
| Optimizer.FlipBitsChangesByReflection | src/adapter/out/optimization/optimizer.py:54-59 | each gene is either unchanged or becomes max[i] - g |
| Optimizer.FlipBitsKeepsBounds | src/adapter/out/optimization/optimizer.py:54-59 | a bounded gene list stays bounded |
| Optimizer.FlipBitsTwice | src/adapter/out/optimization/optimizer.py:54-59 | with the same coins, mutating twice restores the gene list |
| Optimizer.MutFlipBit | src/adapter/out/optimization/optimizer.py:54-59 | the in-place loop leaves the array equal to the reflection function of its old contents |
| Optimizer.OptimizeToolboxWiring | src/adapter/out/optimization/optimizer.py:61 | the toolbox mutates with DEAP's mutFlipBit, not the local reflection; the weights weigh the deviation by -1 and the profit by +1, in the order evaluate returns them |
| Optimizer.InitialPopulation | src/adapter/out/optimization/optimizer.py:38-42 | the population exists iff no max count is negative; it has 70 individuals, each a generated bounded gene list already carrying its evaluation |
| StockOptimize.MakeIndividual | src/services/stock_optimize.py:36 | an individual wraps exactly one bounded gene list (n=1); the same code is repeated at utils.py:34 |
| StockOptimize.Evaluate | src/services/stock_optimize.py:21-28 | over budget gives exactly (0, 100000000000000000000); otherwise (sum of value times count, budget - cost) with a non-negative deviation; the same code is repeated at stock_optimize.py:9-16 |
| StockOptimize.EvaluateReadsFirstGeneList | src/services/stock_optimize.py:22 | only individual[0] is scored |
| StockOptimize.FeasibleBeatsInfeasible | src/services/stock_optimize.py:14-28 | under weights (1, -1), with non-negative data and a budget below the sentinel deviation, a feasible allocation beats the sentinel |
| StockOptimize.InitialPopulationShape | src/services/stock_optimize.py:47 | with non-negative max counts every initial individual has one gene per max count |
| StockOptimize.SearchKeepsGeneLength | src/services/stock_optimize.py:46-88 | with non-negative max counts the search's gene list has one gene per max count |
| StockOptimize.Optimize | src/services/stock_optimize.py:91-100 | a result exists iff no max count is negative; it has one gene per max count and is the gene list of the chosen member of the population after 100 generations |
| Evolution.Select | src/services/stock_optimize.py:58 | selection returns as many individuals as the population holds |
| Evolution.SelectPicksMembers | src/services/stock_optimize.py:58 | every selected individual is a member of the population |
| Evolution.TwoPoint | src/services/stock_optimize.py:40 | two-point crossover keeps both gene-list lengths |
| Evolution.TwoPointExchanges | src/services/stock_optimize.py:67 | at each position the children hold the parents' two values, kept or exchanged |
| Evolution.TwoPointInvolution | src/services/stock_optimize.py:67 | crossing the children again at the same cuts restores the parents |
| Evolution.TwoPointKeepsBounds | src/services/stock_optimize.py:67 | crossing bounded gene lists keeps them bounded |
| Evolution.Crossover | src/services/stock_optimize.py:63-71 | the crossover pass keeps the offspring count |
| Evolution.CrossoverPairs | src/services/stock_optimize.py:63-71 | offspring[2k] is paired only with offspring[2k+1]; a pair whose coin is below 0.5 is crossed and both children lose their fitness; any other pair is unchanged; the same code is repeated at utils.py:61-69 |
| Evolution.CrossoverSkipsOddTrailing | src/services/stock_optimize.py:63 | an odd trailing individual is never crossed |
| Evolution.CrossoverElement | src/services/stock_optimize.py:63-71 | every position keeps its gene count and either stays as it was or loses its fitness |
| Evolution.Mutate | src/services/stock_optimize.py:77 | mutation keeps the gene-list length and every gene it does not touch |
| Evolution.Mutation | src/services/stock_optimize.py:73-78 | the mutation pass keeps the offspring count |
| Evolution.MutationOnlyTouchesMutants | src/services/stock_optimize.py:73-78 | an offspring is mutated iff its coin is below 0.2, and only mutants lose their fitness; the others are unchanged; the same code is repeated at utils.py:71-76 |
| Evolution.Generation | src/services/stock_optimize.py:58-81 | one generation keeps the population size |
| Evolution.Evolve | src/services/stock_optimize.py:55-81 | the population size never changes across generations; the same code is repeated at utils.py:53-79 |
| Evolution.InitialPopulation | src/services/stock_optimize.py:47-52 | 300 individuals, each carrying the evaluation of its generated genes |
| Evolution.GenerationKeepsGeneLength | src/services/stock_optimize.py:58-81 | a generation keeps every gene list at the common length |
| Evolution.EvolveKeepsGeneLength | src/services/stock_optimize.py:55-81 | every individual keeps the common gene length for the whole run |
| Evolution.GenerationKeepsFitnessCurrent | src/services/stock_optimize.py:58-81 | a generation leaves no stale fitness |
| Evolution.EvolveKeepsFitnessCurrent | src/services/stock_optimize.py:55-81 | every fitness left after any number of generations is the evaluation of the current genes |
| Evolution.GenerationComputesNoFitness | src/services/stock_optimize.py:58-81 | a generation introduces no fitness value that was not already present |
| Evolution.EvolveComputesNoFitness | src/services/stock_optimize.py:50-81 | nothing inside the loop evaluates: every fitness after the loop was present in the initial population; the same code is repeated at utils.py:48-79 |
| Evolution.EvolveKeepsFitnessesAmong | src/services/stock_optimize.py:55-81 | fitness values stay within any set that holds the initial ones |
| Evolution.EvolvedFitness | src/services/stock_optimize.py:50-88 | any fitness on an evolved individual is its genes' evaluation and was computed for the initial population |
| Evolution.SelectAndClone | src/services/stock_optimize.py:58-60 | the cloned offspring are a fresh array equal to the selection |
| Evolution.MateInPlace | src/services/stock_optimize.py:66-71 | the loop body replaces exactly the pair 2k, 2k+1 with the mated pair |
| Evolution.CrossAdjacent | src/services/stock_optimize.py:63-71 | the in-place pair loop leaves the array equal to the crossover of its old contents |
| Evolution.MutateEach | src/services/stock_optimize.py:73-78 | the in-place mutation loop leaves the array equal to the mutation of its old contents |
| Evolution.EvaluateAll | src/services/stock_optimize.py:50-52 | every individual gets the evaluation of its genes and keeps its genes |
| Evolution.RunGeneration | src/services/stock_optimize.py:58-81 | one pass of the loop replaces the population by the generation of the old one |
| Evolution.EvolveNext | src/services/stock_optimize.py:55-81 | one more pass on the population after g generations gives the population after g + 1 |
| Evolution.Optimize | src/services/stock_optimize.py:46-88 | the returned individual is the chosen member of the population after exactly 100 generations; its fitness, if present, is its genes' evaluation and was computed before the loop; the same code is repeated at utils.py:44-86 |
| LegacyOptimize.Analyze | stock_optimize.py:19-41 | the analysed genes are best_solution[0][0]; the per-stock cost and value lists are the zipped products; the totals are the sums of those lists; the reported profit is profit - cost |
| LegacyOptimize.AnalyzeEmptyAllocation | stock_optimize.py:34-41 | an empty allocation reports zero profit |
| Arith.SumOfProducts | stock_optimize.py:25-35 | the sum of the per-stock product list equals the zipped sum |
| Arith.Products | stock_optimize.py:25-26 | the per-stock list has length min(inputs), with element i equal to price[i] times count[i] |
| Arith.TruncToInt | src/services/stock_limit_transformer.py:13 | int() truncates toward zero |
| Arith.Round2 | src/services/analyze.py:29 | round(x, 2) is within 0.005 of x and is a whole number of cents |
| Arith.Round2Idempotent | src/services/analyze.py:29 | round(x, 2) is a fixed point of itself: rounding its result again changes nothing |
| Arith.Round2OfDifference | src/services/analyze.py:33-37 | the difference of two amounts rounded to cents is already whole cents, so the profit's rounding leaves the difference of the rounded totals unchanged |
| Jobs.Job.constructor | src/etl.py:34-39 | a job created from a request holds the names, the limit request, the budget, the period and the backtest flag, has no data lists yet, and starts with the status STARTED that src/data.py gives by default |
| StockLimitTransformer.Replicate | src/services/stock_limit_transformer.py:11 | n copies of the common limit |
| StockLimitTransformer.Quotients | src/services/stock_limit_transformer.py:13 | the zipped truncated quotients, of length min(inputs); it fails iff a zipped price is zero |
| StockLimitTransformer.QuotientBounds | src/services/stock_limit_transformer.py:13-21 | for a non-negative total and a positive price the quotient q satisfies 0 <= q <= total/price and q*price <= total < (q+1)*price |
| StockLimitTransformer.StockLimits | src/services/stock_limit_transformer.py:6-21 | the six branches: COUNT gives the limits verbatim or the common limit per name; PRICE and PERCENT give the pairwise or per-price truncated quotients, failing iff a price used is zero; any other type gives [] |
| StockLimitTransformer.StockLimitsSucceedWithoutZeroPrice | src/services/stock_limit_transformer.py:12-21 | once no current price is zero, no branch fails |
| StockLimitTransformer.PriceLimitsAffordable | src/services/stock_limit_transformer.py:12-13 | with money limits and positive prices each count is non-negative and its cost stays within its limit |
| StockLimitTransformer.TransformStockLimit | src/services/stock_limit_transformer.py:5-23 | only max_stock_count_list is reassigned, to the branch's list; a division by zero leaves it as it was |
| Etl.ExceptProjects | src/etl.py:144-145 | element k of a filtered list is the original element at the k-th kept index |
| Etl.ExceptNothing | src/etl.py:144-145 | dropping no index keeps the list |
| Etl.ExceptMembers | src/etl.py:144-145 | a value survives iff it sits at an index outside the drop set |
| Etl.KeptStocksMembers | src/etl.py:54-76 | a downloaded stock survives iff its predicted price is not below its current price |
| Etl.Lookups | src/etl.py:75 | the price list exists iff every name was downloaded, and then it follows the order of the names |
| Etl.DownloadedPricesInOrder | src/etl.py:75-82 | the surviving records follow the order of the job's names, and each survivor is predicted not to fall |
| Etl.DownloadedCountsAligned | src/etl.py:82-91 | the count filter as intended by filter_max_stock_count: when each record carries its own name and there is one count per name, the kept counts line up with the kept stocks |
| Etl.CountsAsWritten | src/etl.py:84-91 | the count filter as written gets through iff the names or the counts are empty, and then gives []; otherwise filter's one-argument call raises TypeError |
| Etl.CountsAsWrittenAgreesWhenEmpty | src/etl.py:84-91 | wherever the count filter as written gets through, it gives what the intended filter gives |
| Etl.CountFilterRaisesOnOneStock | src/etl.py:84-91 | for one surviving stock with count 5 the intended filter keeps [5], while the code as written raises |
| Etl.DownloadLists | src/etl.py:62-92 | a missing download raises KeyError; otherwise the count filter raises unless the names or counts are empty; when the step gets through, the names and the three price lists come from the surviving records, the counts are [] and best_set is as it was |
| Etl.DownloadListsAligned | src/etl.py:75-92 | after a download that gets through, the names and the three price lists have one entry per surviving stock, in the order of the job's names, each the downloaded record's field, with a predicted price not below the current one |
| Etl.DownloadAndPredictStep | src/etl.py:62-92 | the status becomes PREPARING_DATA; a missing download raises before any list is reassigned; the count filter raises after the three price lists are reassigned, leaving names and counts alone; otherwise the lists are those of the download as written |
| Etl.CollectFilterIndices | src/etl.py:136-142 | the two loops collect exactly the indices of a zero limit or a zero current price |
| Etl.FilterZeroLimitsKeeps | src/etl.py:136-145 | an index is kept iff both its limit and its current price are non-zero |
| Etl.FilterZeroLimitsAligned | src/etl.py:144-152 | six lists of one length lose the same indices, keep their order and stay of one length |
| Etl.FilterZeroLimitsRemovesZeros | src/etl.py:136-153 | afterwards no limit and no price is zero, and the count list is no longer than the name list |
| Etl.FilterZeroLimitsIdempotent | src/etl.py:134-153 | re-running the step on its own output changes nothing |
| Etl.FilterZeroLimitStep | src/etl.py:134-155 | the six reassignments and the truncation to len(stock_names) |
| Etl.OptimizationStep | src/etl.py:95-103 | the status becomes OPTIMIZATION; with non-negative limits the search's gene list (one gene per max count) is stored and the status becomes FINISHED; otherwise the search raises and best_set is untouched |
| Etl.PipelineNeverDividesByZero | src/etl.py:174-179 | the limit transformation never divides by zero, because the first zero filter has removed every zero price |
| Etl.PreparedListsClean | src/etl.py:174-179 | the lists the search starts from have no zero limit and no zero price, and no more limits than names |
| Etl.TransformAndFilter | src/etl.py:178-179 | the limit transformation followed by the zero filter reassigns the lists to the filtered transformed lists, or stops on the transformation's division by zero |
| Etl.DownloadAndFilter | src/etl.py:176-177 | the download followed by the zero filter leaves the zero-filtered download, or stops on the download's error, with the status PREPARING_DATA |
| Etl.PrepareJob | src/etl.py:176-179 | the four steps before the search leave the lists of download, zero filter, limit transformation and zero filter in that order, or stop on the first error, with the status PREPARING_DATA |
| Etl.OptimizeAndReport | src/etl.py:95-110 | a negative limit ends in OPTIMIZATION with best_set untouched; otherwise the status is FINISHED, best_set is the search's gene list, and the result is construct_result of the job or the zero-total-cost error |
| Etl.RunEtlInternal | src/etl.py:174-183 | the run is the composition download, zero filter, limit transformation, zero filter, search; the first step to raise ends it, in PREPARING_DATA for a missing download or the count filter and in OPTIMIZATION for a negative limit; the transformation never divides by zero; a completed run ends FINISHED with the prepared lists and the searched best_set. Python returns None: the returned value stands for the result construct_result_step saves through repo.save_opt_result |
| Analyze.RoundedProducts | src/services/analyze.py:29-31 | the per-stock list has length min(inputs), with element i equal to round(price[i] * count[i], 2) |
| Analyze.ZerosLike | src/services/analyze.py:44-45 | a zero list as long as the current prices |
| Analyze.RoundedTotal | src/services/analyze.py:33-35 | a total is the rounded sum of the per-stock products |
| Analyze.ConstructResult | src/services/analyze.py:28-56 | fails iff the rounded total cost is zero, backtest or not; otherwise per-stock costs, rounded totals, rounded profit and percentages; the job's fields pass through; without backtesting the real fields are zero lists and zeros; with it they keep their computed values, and real_profit is left unrounded |
| Analyze.EmptyBestSetFails | src/services/analyze.py:34-40 | an all-zero best set fails even when not backtesting |
| Analyze.TotalCostPositive | src/services/analyze.py:34-40 | with non-negative prices and counts, a job that has a result spent a positive amount |
| StockPicker.CalculateIndex | src/adapter/out/stock_pick/stock_picker.py:5-10 | a counter below the length, including a negative one, is returned unchanged; otherwise the result is counter % length; a non-negative counter lands in [0, length); termination needs a positive length or a negative counter |
| Analyzer.LastPrice | src/adapter/out/analyze/analyzer.py:27-28 | the last row's value rounded to two decimals; none for an empty column |
| Analyzer.LastPriceOfClosingPrices | tests/adapter/out/analyze/test_analyzer.py:107-122 | the last price of [100.0, 101.5, 102.3, 103.7, 104.2] is 104.2 |
| Analyzer.Analyses | src/adapter/out/analyze/analyzer.py:8-22 | the current price is the last y and the predicted price the last yhat; growth compares the two; the file name is the ticker symbol plus ".png" |
| Analyzer.GrowingIffForecastNotBelow | src/adapter/out/analyze/analyzer.py:9-25 | a stock is growing iff its rounded current price is at most its rounded last forecast |

## Left out

- DEAP internals are not modelled as DEAP implements them. This covers `selTournament`, `cxTwoPoint`, `cxUniform`, `tools.mutFlipBit`, `selBest`, `creator` and `clone`. Each is an abstract step fed by supplied draws:
  - selection takes picks modulo the population size;
  - two-point crossover swaps the segment between two supplied cuts;
  - mutation writes a supplied per-gene value or keeps the gene;
  - `selBest` is a supplied index into the final population.
- `eaSimple`, DEAP's own loop run by the newest adapter (`optimizer.py:44`), and the `tools.selBest` call after it are not modelled. The model covers that adapter up to the evaluated initial population. Its loop settings `CXPB = 0.3`, `MUTPB = 0.7` and `NUMBER_OF_ITERATIONS = 100` (`src/adapter/out/optimization/optimizer.py:10`) only parameterise `eaSimple`, so they are not modelled.
- The DEAP parameters are not modelled, because they only parameterise those DEAP internals:
  - `tournsize=3` and the mutation's `indpb=0.05` of the services and `utils.py` toolboxes (`src/services/stock_optimize.py:41-42`, `utils.py:39-40`) appear nowhere in the model;
  - the newest adapter's tournament size and its `indpb` values appear only as `Optimizer.Toolbox` configuration values.
- DEAP's `cxTwoPoint` draws a cut with `randint(1, size - 1)`, which raises for gene lists shorter than two. The model's cuts are supplied, so nothing raises. A one-stock Python run therefore almost surely stops in OPTIMIZATION, at the first crossover whose coin fires, while `Etl.OptimizationStep` reports FINISHED.
- Randomness: `random.randint` and `random.random` are supplied draw sequences. A missing coin reads as 1.0, so it never fires; a missing raw draw reads as 0.
- Floating point is not modelled. Prices and budgets are exact reals, so binary float rounding in `round(..., 2)`, in the sums and in `int(x / y)` is not captured.
- NaN does not exist in exact reals, so the `math.isnan` test of `filter_zero_limit_step` is not modelled.
- Forecasting with Prophet, market-data downloads, plotting, `savefig` and ticker `info` lookups are external. Their results are parameters: the `fetched` price map, the `y`/`yhat` columns, and the short name and currency.
- The repository's save calls, the HTTP counter in `pick` and all printing are left out: `print_result`, `print_step_stats` and the prints in `analyze`.
- `construct_result_step` is left out beyond `construct_result` itself. Its backtest branch only downloads an index price and prints.
- The thread pool of `download_and_predict_step` is not modelled. The model starts from the completed downloads.
- `run_etl_async` and `run_etl`, and the job creation with its random `uuid`, are left out.
- Etl.RunEtlInternal: the swallowed exception is modelled as an error value naming the step that raised (`MissingDownload`, `CountFilterArity`, `NegativeLimit`, `ZeroTotalCost`). Python prints it and returns nothing.
- Limits are integers. The request JSON read at `endpoints.py:48` may carry fractional money or percent limits, and those are not modelled.
- Evolution.Optimize and StockOptimize.Optimize: the returned individual is identified by the supplied index, not by DEAP's fitness ordering.
- Jobs.Job.constructor: `data.data`, the record module that `src/etl.py` imports, is not part of this model. The constructor follows the call in `src/etl.py`, so the count list starts empty; the record's own defaults for its lists are unknown. The job id, a random `uuid` in Python, is a parameter.

## Findings

| source | as written | input that shows it | evidently intended | confidence | as-written member | corrected member |
|---|---|---|---|---|---|---|
| src/etl.py:84-91 | `filter(filter_max_stock_count, zip(names, counts))` calls the two-parameter predicate with one pair, so TypeError is raised whenever both lists are non-empty; the price lists are already reassigned and the job stays PREPARING_DATA | names ["A"], counts [5], with "A" surviving the download | keep the counts whose name survived, aligned with the surviving stocks | high; not executed | Etl.CountFilterRaisesOnOneStock (with Etl.CountsAsWritten, used by Etl.DownloadAndPredictStep) | Etl.CountsOfSurvivors, proved aligned by Etl.DownloadedCountsAligned |
