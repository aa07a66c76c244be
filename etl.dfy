/** The job pipeline: the price download filter, the zero-limit filter that
    drops one index set from six parallel lists, the optimisation step and the
    order `run_etl_internal` runs the steps in. */
module Etl {
  import opened Wrappers
  import opened Arith
  import opened Jobs
  import StockLimitTransformer
  import StockOptimize
  import Evolution
  import Analyze

  // ---------------------------------------------------------------------
  // Dropping an index set from a list
  // ---------------------------------------------------------------------

  /** `[x for i, x in enumerate(xs) if i not in drop]`. */
  function Except<T>(xs: seq<T>, drop: set<int>): (r: seq<T>)
    ensures |r| <= |xs|
    decreases |xs|
  {
    if |xs| == 0 then []
    else Except(xs[..|xs| - 1], drop) + (if |xs| - 1 in drop then [] else [xs[|xs| - 1]])
  }

  /** The indices below `n` that are not in `drop`, in increasing order. */
  function KeptIndices(n: nat, drop: set<int>): (r: seq<nat>)
    ensures |r| <= n
    ensures forall k :: 0 <= k < |r| ==> r[k] < n && r[k] !in drop
    ensures forall k, l :: 0 <= k < l < |r| ==> r[k] < r[l]
  {
    if n == 0 then [] else KeptIndices(n - 1, drop) + (if n - 1 in drop then [] else [n - 1])
  }

  /** Every index below `n` outside `drop` is kept. */
  lemma {:induction false} KeptIndicesComplete(n: nat, drop: set<int>, i: int)
    requires 0 <= i < n && i !in drop
    ensures i in KeptIndices(n, drop)
  {
    if i < n - 1 {
      KeptIndicesComplete(n - 1, drop, i);
    }
  }

  /** Nothing to drop keeps every index. */
  lemma {:induction false} KeptIndicesOfEmpty(n: nat)
    ensures KeptIndices(n, {}) == seq(n, k => k)
  {
    if n > 0 {
      KeptIndicesOfEmpty(n - 1);
    }
  }

  /** Element `k` of the filtered list is the element of the original list at
      the `k`-th kept index. Lists of the same length are therefore filtered
      in step. */
  lemma {:induction false} ExceptProjects<T>(xs: seq<T>, drop: set<int>)
    ensures |Except(xs, drop)| == |KeptIndices(|xs|, drop)|
    ensures forall k :: 0 <= k < |Except(xs, drop)| ==> Except(xs, drop)[k] == xs[KeptIndices(|xs|, drop)[k]]
    decreases |xs|
  {
    if |xs| > 0 {
      var init := xs[..|xs| - 1];
      ExceptProjects(init, drop);
      assert forall k :: 0 <= k < |Except(init, drop)| ==> init[KeptIndices(|init|, drop)[k]] == xs[KeptIndices(|init|, drop)[k]];
    }
  }

  /** Dropping nothing keeps the list. */
  lemma ExceptNothing<T>(xs: seq<T>)
    ensures Except(xs, {}) == xs
  {
    ExceptProjects(xs, {});
    KeptIndicesOfEmpty(|xs|);
  }

  /** A value is in the filtered list iff it sits at a kept index. */
  lemma ExceptMembers<T>(xs: seq<T>, drop: set<int>, x: T)
    ensures x in Except(xs, drop) <==> exists i :: 0 <= i < |xs| && i !in drop && xs[i] == x
  {
    ExceptProjects(xs, drop);
    var kept := KeptIndices(|xs|, drop);
    if i :| 0 <= i < |xs| && i !in drop && xs[i] == x {
      KeptIndicesComplete(|xs|, drop, i);
      var k :| 0 <= k < |kept| && kept[k] == i;
      assert Except(xs, drop)[k] == x;
    }
  }

  // ---------------------------------------------------------------------
  // download_and_predict_step
  // ---------------------------------------------------------------------

  /** `filter_negative_stock`: a stock is dropped when its predicted price is
      below its current price. */
  predicate FilterNegativeStock(p: PriceData)
  {
    !(p.predictPrice < p.currentPrice)
  }

  /** The positions of the stocks `filter_negative_stock` drops. */
  function NegativeIndices(prices: seq<PriceData>): set<int>
  {
    set i | 0 <= i < |prices| && !FilterNegativeStock(prices[i])
  }

  /** `list(filter(filter_negative_stock, prices))`. */
  function KeptStocks(prices: seq<PriceData>): seq<PriceData>
  {
    Except(prices, NegativeIndices(prices))
  }

  /** A stock survives the filter iff it was downloaded and is predicted
      not to fall. */
  lemma KeptStocksMembers(prices: seq<PriceData>, p: PriceData)
    ensures p in KeptStocks(prices) <==> p in prices && FilterNegativeStock(p)
  {
    ExceptMembers(prices, NegativeIndices(prices), p);
    if p in prices && FilterNegativeStock(p) {
      var i :| 0 <= i < |prices| && prices[i] == p;
      assert i !in NegativeIndices(prices);
    }
  }

  /** `[queue[name] for name in job.stock_names]`: the download of every
      stock, or nothing when one is missing (the lookup raises). */
  function Lookups(names: seq<string>, fetched: map<string, PriceData>): (r: Option<seq<PriceData>>)
    ensures r.Some? <==> forall k :: 0 <= k < |names| ==> names[k] in fetched
    ensures r.Some? ==> |r.value| == |names| && forall k :: 0 <= k < |names| ==> r.value[k] == fetched[names[k]]
  {
    if forall k :: 0 <= k < |names| ==> names[k] in fetched then
      Some(seq(|names|, k requires 0 <= k < |names| && names[k] in fetched => fetched[names[k]]))
    else None
  }

  function CurrentPricesOf(prices: seq<PriceData>): (r: seq<real>)
    ensures |r| == |prices| && forall k :: 0 <= k < |r| ==> r[k] == prices[k].currentPrice
  {
    seq(|prices|, k requires 0 <= k < |prices| => prices[k].currentPrice)
  }

  function PredictPricesOf(prices: seq<PriceData>): (r: seq<real>)
    ensures |r| == |prices| && forall k :: 0 <= k < |r| ==> r[k] == prices[k].predictPrice
  {
    seq(|prices|, k requires 0 <= k < |prices| => prices[k].predictPrice)
  }

  function RealPricesOf(prices: seq<PriceData>): (r: seq<real>)
    ensures |r| == |prices| && forall k :: 0 <= k < |r| ==> r[k] == prices[k].realFuturePrice
  {
    seq(|prices|, k requires 0 <= k < |prices| => prices[k].realFuturePrice)
  }

  function NamesOf(prices: seq<PriceData>): (r: seq<string>)
    ensures |r| == |prices| && forall k :: 0 <= k < |r| ==> r[k] == prices[k].stockName
  {
    seq(|prices|, k requires 0 <= k < |prices| => prices[k].stockName)
  }

  /** The positions of the zipped name/count pairs whose name did not survive. */
  function UnnamedIndices(names: seq<string>, counts: seq<int>, survivors: seq<string>): set<int>
  {
    set i | 0 <= i < Min(|names|, |counts|) && names[i] !in survivors
  }

  /** The count filter as intended by `filter_max_stock_count`: the counts
      whose stock name survived, in order. The code as written never gets this
      far on non-empty lists (see `CountsAsWritten`). */
  function CountsOfSurvivors(names: seq<string>, counts: seq<int>, survivors: seq<string>): seq<int>
  {
    Except(counts[..Min(|names|, |counts|)], UnnamedIndices(names, counts, survivors))
  }

  /** The downloaded lists follow the order of the job's names, restricted to
      the stocks that survive the filter, and every survivor is predicted not
      to fall. */
  lemma DownloadedPricesInOrder(names: seq<string>, fetched: map<string, PriceData>)
    requires Lookups(names, fetched).Some?
    ensures var lookups := Lookups(names, fetched).value;
      var kept := KeptStocks(lookups);
      var order := KeptIndices(|names|, NegativeIndices(lookups));
      |kept| == |order|
      && forall k :: 0 <= k < |kept| ==>
           kept[k] == fetched[names[order[k]]] && kept[k].predictPrice >= kept[k].currentPrice
  {
    var lookups := Lookups(names, fetched).value;
    ExceptProjects(lookups, NegativeIndices(lookups));
  }

  /** The intended count filter keeps the counts aligned: when each download
      carries the name it was fetched under, and the job has one count per
      name, the surviving counts line up with the surviving stocks, the count
      at position `k` being the count of the stock at `k`. */
  lemma DownloadedCountsAligned(names: seq<string>, counts: seq<int>, fetched: map<string, PriceData>)
    requires Lookups(names, fetched).Some?
    requires forall n :: n in fetched ==> fetched[n].stockName == n
    requires |counts| == |names|
    ensures var lookups := Lookups(names, fetched).value;
      var kept := KeptStocks(lookups);
      var survivingCounts := CountsOfSurvivors(names, counts, NamesOf(kept));
      var order := KeptIndices(|names|, NegativeIndices(lookups));
      |survivingCounts| == |kept| == |order|
      && forall k :: 0 <= k < |kept| ==> survivingCounts[k] == counts[order[k]] && kept[k] == fetched[names[order[k]]]
  {
    var lookups := Lookups(names, fetched).value;
    var kept := KeptStocks(lookups);
    var survivors := NamesOf(kept);
    forall i | 0 <= i < |names|
      ensures names[i] in survivors <==> FilterNegativeStock(lookups[i])
    {
      if FilterNegativeStock(lookups[i]) {
        KeptStocksMembers(lookups, lookups[i]);
        var k :| 0 <= k < |kept| && kept[k] == lookups[i];
        assert survivors[k] == names[i];
      }
      if names[i] in survivors {
        var k :| 0 <= k < |survivors| && survivors[k] == names[i];
        KeptStocksMembers(lookups, kept[k]);
        var j :| 0 <= j < |lookups| && lookups[j] == kept[k];
        assert names[j] == names[i];
      }
    }
    assert counts[..Min(|names|, |counts|)] == counts;
    assert UnnamedIndices(names, counts, survivors) == NegativeIndices(lookups);
    ExceptProjects(counts, NegativeIndices(lookups));
    ExceptProjects(lookups, NegativeIndices(lookups));
  }

  /** The count filter `[y for x, y in filter(filter_max_stock_count, zip(names,
      counts))]` as written: `filter` calls its predicate with one argument, the
      `(name, count)` pair, while `filter_max_stock_count` takes two, so every
      non-empty zip raises TypeError. Only an empty zip gets through, giving `[]`. */
  function CountsAsWritten(names: seq<string>, counts: seq<int>): (r: Option<seq<int>>)
    ensures r.Some? <==> |names| == 0 || |counts| == 0
    ensures r.Some? ==> r.value == []
  {
    if Min(|names|, |counts|) == 0 then Some([]) else None
  }

  /** Wherever the count filter as written gets through, it agrees with the
      intended one. */
  lemma CountsAsWrittenAgreesWhenEmpty(names: seq<string>, counts: seq<int>, survivors: seq<string>)
    requires CountsAsWritten(names, counts).Some?
    ensures CountsAsWritten(names, counts) == Some(CountsOfSurvivors(names, counts, survivors))
  {
    assert counts[..Min(|names|, |counts|)] == [];
  }

  /** One stock with one count: the intended filter keeps the count of the
      surviving stock, the filter as written raises. */
  lemma CountFilterRaisesOnOneStock()
    ensures CountsOfSurvivors(["A"], [5], ["A"]) == [5]
    ensures CountsAsWritten(["A"], [5]).None?
  {
    assert UnnamedIndices(["A"], [5], ["A"]) == {};
    ExceptNothing([5]);
  }

  /** The six lists after `download_and_predict_step` as written, or the error
      it raises: a stock missing from the downloads raises KeyError before any
      list is reassigned; otherwise the price lists are reassigned and the count
      filter raises unless the names or the counts are empty. */
  function DownloadLists(lists: JobLists, fetched: map<string, PriceData>): (r: Result<JobLists, EtlError>)
    ensures r.Ok? <==> Lookups(lists.stockNames, fetched).Some? && (|lists.stockNames| == 0 || |lists.maxStockCountList| == 0)
    ensures r.Err? ==> r.error == (if Lookups(lists.stockNames, fetched).None? then MissingDownload else CountFilterArity)
    ensures r.Ok? ==>
      var kept := KeptStocks(Lookups(lists.stockNames, fetched).value);
      r.value == JobLists([], NamesOf(kept), CurrentPricesOf(kept), lists.bestSet, RealPricesOf(kept), PredictPricesOf(kept))
  {
    match Lookups(lists.stockNames, fetched)
    case None => Err(MissingDownload)
    case Some(lookups) =>
      var kept := KeptStocks(lookups);
      match CountsAsWritten(lists.stockNames, lists.maxStockCountList)
      case None => Err(CountFilterArity)
      case Some(counts) =>
        Ok(JobLists(counts, NamesOf(kept), CurrentPricesOf(kept), lists.bestSet, RealPricesOf(kept), PredictPricesOf(kept)))
  }

  /** After a download that gets through, the price lists have one entry per
      remaining name, taken in the order of the job's names, and no remaining
      stock is predicted to fall. */
  lemma DownloadListsAligned(lists: JobLists, fetched: map<string, PriceData>)
    requires DownloadLists(lists, fetched).Ok?
    ensures var d := DownloadLists(lists, fetched).value;
      var order := KeptIndices(|lists.stockNames|, NegativeIndices(Lookups(lists.stockNames, fetched).value));
      |d.stockNames| == |d.currentPrices| == |d.predictedPrices| == |d.realPrices| == |order|
      && forall k :: 0 <= k < |order| ==>
           var p := fetched[lists.stockNames[order[k]]];
           d.currentPrices[k] == p.currentPrice && d.predictedPrices[k] == p.predictPrice
           && d.realPrices[k] == p.realFuturePrice && d.stockNames[k] == p.stockName
           && d.predictedPrices[k] >= d.currentPrices[k]
  {
    DownloadedPricesInOrder(lists.stockNames, fetched);
  }

  /** `download_and_predict_step` after the downloads: the status is set first;
      a stock missing from the downloads raises before any list is reassigned;
      the count filter raises after the three price lists are reassigned. */
  method DownloadAndPredictStep(job: Job, fetched: map<string, PriceData>) returns (failure: Option<EtlError>)
    modifies job`status, job`currentPrices, job`predictedPrices, job`realPrices, job`maxStockCountList, job`stockNames
    ensures job.status == PreparingData
    ensures var d := DownloadLists(old(job.Lists()), fetched);
      (failure.None? <==> d.Ok?) && (d.Ok? ==> job.Lists() == d.value) && (d.Err? ==> failure == Some(d.error))
    ensures failure == Some(MissingDownload) ==> job.Lists() == old(job.Lists())
    ensures failure == Some(CountFilterArity) ==>
      var kept := KeptStocks(Lookups(old(job.stockNames), fetched).value);
      job.currentPrices == CurrentPricesOf(kept) && job.predictedPrices == PredictPricesOf(kept)
      && job.realPrices == RealPricesOf(kept)
      && job.stockNames == old(job.stockNames) && job.maxStockCountList == old(job.maxStockCountList)
  {
    job.status := PreparingData;
    var lookups := Lookups(job.stockNames, fetched);
    if lookups.None? {
      return Some(MissingDownload);
    }
    var prices := KeptStocks(lookups.value);
    job.currentPrices := CurrentPricesOf(prices);
    job.predictedPrices := PredictPricesOf(prices);
    job.realPrices := RealPricesOf(prices);
    var filteredStockNames := NamesOf(prices);
    var counts := CountsAsWritten(job.stockNames, job.maxStockCountList);
    if counts.None? {
      return Some(CountFilterArity);
    }
    job.maxStockCountList := counts.value;
    job.stockNames := filteredStockNames;
    failure := None;
  }

  // ---------------------------------------------------------------------
  // filter_zero_limit_step
  // ---------------------------------------------------------------------

  /** The indices `filter_zero_limit_step` drops: a zero limit or a zero
      current price. */
  function ZeroIndices(limits: seq<int>, prices: seq<real>): set<int>
  {
    (set i | 0 <= i < |limits| && limits[i] == 0) + (set i | 0 <= i < |prices| && prices[i] == 0.0)
  }

  /** The two loops that fill `filter_indices`. */
  method CollectFilterIndices(limits: seq<int>, prices: seq<real>) returns (drop: set<int>)
    ensures drop == ZeroIndices(limits, prices)
  {
    drop := {};
    for i := 0 to |limits|
      invariant drop == set j | 0 <= j < i && limits[j] == 0
    {
      if limits[i] == 0 {
        drop := drop + {i};
      }
    }
    ghost var zeroLimits := drop;
    for i := 0 to |prices|
      invariant drop == zeroLimits + set j | 0 <= j < i && prices[j] == 0.0
    {
      if prices[i] == 0.0 {
        drop := drop + {i};
      }
    }
  }

  /** The six reassignments of `filter_zero_limit_step`, then the truncation
      of the count list to the number of names. */
  function FilterZeroLimits(lists: JobLists): JobLists
  {
    var drop := ZeroIndices(lists.maxStockCountList, lists.currentPrices);
    var limits := Except(lists.maxStockCountList, drop);
    var names := Except(lists.stockNames, drop);
    JobLists(limits[..Min(|limits|, |names|)], names, Except(lists.currentPrices, drop),
             Except(lists.bestSet, drop), Except(lists.realPrices, drop), Except(lists.predictedPrices, drop))
  }

  /** No limit of zero and no price of zero is left. */
  predicate NoZeroLimitOrPrice(lists: JobLists)
  {
    (forall k :: 0 <= k < |lists.maxStockCountList| ==> lists.maxStockCountList[k] != 0)
    && (forall k :: 0 <= k < |lists.currentPrices| ==> lists.currentPrices[k] != 0.0)
  }

  /** After the step no remaining limit and no remaining price is zero, and
      the count list is no longer than the name list. */
  lemma FilterZeroLimitsRemovesZeros(lists: JobLists)
    ensures NoZeroLimitOrPrice(FilterZeroLimits(lists))
    ensures |FilterZeroLimits(lists).maxStockCountList| <= |FilterZeroLimits(lists).stockNames|
  {
    var drop := ZeroIndices(lists.maxStockCountList, lists.currentPrices);
    ExceptProjects(lists.maxStockCountList, drop);
    ExceptProjects(lists.currentPrices, drop);
  }

  /** An index is kept iff its limit and its current price are both
      non-zero. */
  lemma FilterZeroLimitsKeeps(limits: seq<int>, prices: seq<real>, n: nat, i: nat)
    requires i < n
    ensures i in KeptIndices(n, ZeroIndices(limits, prices)) <==>
      !(i < |limits| && limits[i] == 0) && !(i < |prices| && prices[i] == 0.0)
  {
    var drop := ZeroIndices(limits, prices);
    if i !in drop {
      KeptIndicesComplete(n, drop, i);
    }
  }

  /** Six lists of one length keep the same indices, in order, and stay of
      one length: element `k` of each comes from the `k`-th kept index. */
  lemma FilterZeroLimitsAligned(lists: JobLists, n: nat)
    requires |lists.maxStockCountList| == |lists.stockNames| == |lists.currentPrices| == n
    requires |lists.bestSet| == |lists.realPrices| == |lists.predictedPrices| == n
    ensures var r := FilterZeroLimits(lists);
      var order := KeptIndices(n, ZeroIndices(lists.maxStockCountList, lists.currentPrices));
      |r.maxStockCountList| == |r.stockNames| == |r.currentPrices| == |order|
      && |r.bestSet| == |r.realPrices| == |r.predictedPrices| == |order|
      && forall k :: 0 <= k < |order| ==>
           r.maxStockCountList[k] == lists.maxStockCountList[order[k]] && r.stockNames[k] == lists.stockNames[order[k]]
           && r.currentPrices[k] == lists.currentPrices[order[k]] && r.bestSet[k] == lists.bestSet[order[k]]
           && r.realPrices[k] == lists.realPrices[order[k]] && r.predictedPrices[k] == lists.predictedPrices[order[k]]
  {
    var drop := ZeroIndices(lists.maxStockCountList, lists.currentPrices);
    var r := FilterZeroLimits(lists);
    ExceptProjects(lists.maxStockCountList, drop);
    ExceptProjects(lists.stockNames, drop);
    assert r.maxStockCountList == Except(lists.maxStockCountList, drop);
    ExceptProjects(lists.currentPrices, drop);
    ExceptProjects(lists.bestSet, drop);
    ExceptProjects(lists.realPrices, drop);
    ExceptProjects(lists.predictedPrices, drop);
  }

  /** Re-running the step on its own output removes nothing. */
  lemma FilterZeroLimitsIdempotent(lists: JobLists)
    ensures FilterZeroLimits(FilterZeroLimits(lists)) == FilterZeroLimits(lists)
  {
    var once := FilterZeroLimits(lists);
    FilterZeroLimitsRemovesZeros(lists);
    assert ZeroIndices(once.maxStockCountList, once.currentPrices) == {};
    ExceptNothing(once.maxStockCountList);
    ExceptNothing(once.stockNames);
    ExceptNothing(once.currentPrices);
    ExceptNothing(once.bestSet);
    ExceptNothing(once.realPrices);
    ExceptNothing(once.predictedPrices);
  }

  /** `filter_zero_limit_step`. */
  method FilterZeroLimitStep(job: Job)
    modifies job`maxStockCountList, job`stockNames, job`currentPrices, job`bestSet, job`realPrices, job`predictedPrices
    ensures job.Lists() == FilterZeroLimits(old(job.Lists()))
  {
    var lists := job.Lists();
    var filterIndices := CollectFilterIndices(lists.maxStockCountList, lists.currentPrices);
    var limits := Except(lists.maxStockCountList, filterIndices);
    var names := Except(lists.stockNames, filterIndices);
    job.stockNames := names;
    job.currentPrices := Except(lists.currentPrices, filterIndices);
    job.bestSet := Except(lists.bestSet, filterIndices);
    job.realPrices := Except(lists.realPrices, filterIndices);
    job.predictedPrices := Except(lists.predictedPrices, filterIndices);
    job.maxStockCountList := limits[..Min(|limits|, |names|)];
  }

  // ---------------------------------------------------------------------
  // optimization_step and run_etl_internal
  // ---------------------------------------------------------------------

  /** `optimization_step`: the status moves to OPTIMIZATION, the search's best
      gene list is stored, then the status moves to FINISHED. A negative
      limit makes the search raise while the status is OPTIMIZATION. */
  method OptimizationStep(job: Job, individualDraws: seq<seq<nat>>, draws: seq<Evolution.GenerationDraws>, bestPick: nat)
    returns (ok: bool)
    modifies job`status, job`bestSet
    ensures ok <==> forall i :: 0 <= i < |job.maxStockCountList| ==> job.maxStockCountList[i] >= 0
    ensures ok ==> (job.status == Finished && |job.bestSet| == |job.maxStockCountList|
                    && job.bestSet == StockOptimize.Search(job.maxStockCountList, job.predictedPrices, job.currentPrices,
                                                           job.budget as real, individualDraws, draws, bestPick))
    ensures !ok ==> job.status == Optimization && job.bestSet == old(job.bestSet)
  {
    job.status := Optimization;
    var bestSet := StockOptimize.Optimize(job.maxStockCountList, job.predictedPrices, job.currentPrices,
                                          job.budget as real, individualDraws, draws, bestPick);
    if bestSet.None? {
      return false;
    }
    job.bestSet := bestSet.value;
    job.status := Finished;
    ok := true;
  }

  /** The step that raised, when one did: the download's KeyError, the count
      filter's TypeError, the limit transformation's ZeroDivisionError, the
      search's ValueError on a negative limit, and the result's
      ZeroDivisionError on a zero total cost. */
  datatype EtlError = MissingDownload | CountFilterArity | LimitDivisionByZero | NegativeLimit | ZeroTotalCost

  /** The lists after the limit transformation and the second zero filter,
      starting from the lists the first zero filter left, or the
      transformation's division by zero. */
  function PreparedFrom(filtered: JobLists, limit: StockLimit, budget: int): Result<JobLists, EtlError>
  {
    match StockLimitTransformer.StockLimits(limit, budget, |filtered.stockNames|, filtered.currentPrices)
    case Err(_) => Err(LimitDivisionByZero)
    case Ok(counts) => Ok(FilterZeroLimits(filtered.(maxStockCountList := counts)))
  }

  /** The six lists `optimization_step` starts from: the steps of
      `run_etl_internal` before it, in their order (download, zero filter,
      limit transformation, zero filter), or the error of the first step that
      raises. */
  function PreparedLists(lists: JobLists, limit: StockLimit, budget: int, fetched: map<string, PriceData>)
    : Result<JobLists, EtlError>
  {
    match DownloadLists(lists, fetched)
    case Err(e) => Err(e)
    case Ok(downloaded) => PreparedFrom(FilterZeroLimits(downloaded), limit, budget)
  }

  /** The limit transformation never divides by zero: the first zero filter has
      already removed every zero current price. */
  lemma PipelineNeverDividesByZero(lists: JobLists, limit: StockLimit, budget: int, fetched: map<string, PriceData>)
    ensures PreparedLists(lists, limit, budget, fetched) != Err(LimitDivisionByZero)
  {
    var d := DownloadLists(lists, fetched);
    if d.Ok? {
      var filtered := FilterZeroLimits(d.value);
      FilterZeroLimitsRemovesZeros(d.value);
      StockLimitTransformer.StockLimitsSucceedWithoutZeroPrice(limit, budget, |filtered.stockNames|, filtered.currentPrices);
    }
  }

  /** The lists the search starts from have no zero limit and no zero price,
      and no more limits than names. */
  lemma PreparedListsClean(lists: JobLists, limit: StockLimit, budget: int, fetched: map<string, PriceData>)
    requires PreparedLists(lists, limit, budget, fetched).Ok?
    ensures var r := PreparedLists(lists, limit, budget, fetched).value;
      NoZeroLimitOrPrice(r) && |r.maxStockCountList| <= |r.stockNames|
  {
    var filtered := FilterZeroLimits(DownloadLists(lists, fetched).value);
    var counts := StockLimitTransformer.StockLimits(limit, budget, |filtered.stockNames|, filtered.currentPrices).value;
    FilterZeroLimitsRemovesZeros(filtered.(maxStockCountList := counts));
  }

  /** `stock_limit_transform_step` followed by `filter_zero_limit_step`. */
  method TransformAndFilter(job: Job) returns (failure: Option<EtlError>)
    modifies job`maxStockCountList, job`stockNames, job`currentPrices, job`bestSet, job`realPrices, job`predictedPrices
    ensures var p := PreparedFrom(old(job.Lists()), job.stockLimit, job.budget);
      (failure.None? <==> p.Ok?) && (p.Err? ==> failure == Some(p.error)) && (p.Ok? ==> job.Lists() == p.value)
  {
    ghost var filtered := job.Lists();
    ghost var limits := StockLimitTransformer.StockLimits(job.stockLimit, job.budget, |job.stockNames|, job.currentPrices);
    var transformed := StockLimitTransformer.TransformStockLimit(job);
    if transformed.Err? {
      return Some(LimitDivisionByZero);
    }
    assert job.Lists() == filtered.(maxStockCountList := limits.value);
    FilterZeroLimitStep(job);
    failure := None;
  }

  /** `download_and_predict_step` followed by `filter_zero_limit_step`. */
  method DownloadAndFilter(job: Job, fetched: map<string, PriceData>) returns (failure: Option<EtlError>)
    modifies job`status, job`maxStockCountList, job`stockNames, job`currentPrices, job`bestSet, job`realPrices,
             job`predictedPrices
    ensures var d := DownloadLists(old(job.Lists()), fetched);
      (failure.None? <==> d.Ok?) && (d.Err? ==> failure == Some(d.error)) && (d.Ok? ==> job.Lists() == FilterZeroLimits(d.value))
    ensures job.status == PreparingData
  {
    failure := DownloadAndPredictStep(job, fetched);
    if failure.Some? {
      return;
    }
    FilterZeroLimitStep(job);
  }

  /** The steps of `run_etl_internal` before the search: the download, the
      zero filter, the limit transformation and the zero filter again; the
      status is PREPARING_DATA throughout. */
  method PrepareJob(job: Job, fetched: map<string, PriceData>) returns (failure: Option<EtlError>)
    modifies job`status, job`maxStockCountList, job`stockNames, job`currentPrices, job`bestSet, job`realPrices,
             job`predictedPrices
    ensures var p := PreparedLists(old(job.Lists()), job.stockLimit, job.budget, fetched);
      (failure.None? <==> p.Ok?) && (p.Err? ==> failure == Some(p.error)) && (p.Ok? ==> job.Lists() == p.value)
    ensures job.status == PreparingData
  {
    ghost var p := PreparedLists(job.Lists(), job.stockLimit, job.budget, fetched);
    failure := DownloadAndFilter(job, fetched);
    if failure.Some? {
      return;
    }
    assert p == PreparedFrom(job.Lists(), job.stockLimit, job.budget);
    failure := TransformAndFilter(job);
  }

  /** `optimization_step` followed by `construct_result_step`: a negative
      limit ends the run in OPTIMIZATION; otherwise the run ends FINISHED with
      the search's gene list stored, and the result is `construct_result` of
      the job, or the division by a zero total cost. */
  method OptimizeAndReport(job: Job, individualDraws: seq<seq<nat>>, draws: seq<Evolution.GenerationDraws>, bestPick: nat)
    returns (outcome: Result<OptimizationResult, EtlError>)
    modifies job`status, job`bestSet
    ensures !AllNonNegative(job.maxStockCountList) ==>
      outcome == Err(NegativeLimit) && job.status == Optimization && job.bestSet == old(job.bestSet)
    ensures AllNonNegative(job.maxStockCountList) ==>
      job.status == Finished
      && job.bestSet == StockOptimize.Search(job.maxStockCountList, job.predictedPrices, job.currentPrices,
                                             job.budget as real, individualDraws, draws, bestPick)
      && (outcome.Ok? <==> Analyze.ConstructResult(job).Ok?)
      && (outcome.Ok? ==> Analyze.ConstructResult(job) == Ok(outcome.value))
      && (outcome.Err? ==> outcome == Err(ZeroTotalCost))
  {
    var optimized := OptimizationStep(job, individualDraws, draws, bestPick);
    if !optimized {
      return Err(NegativeLimit);
    }
    var result := Analyze.ConstructResult(job);
    if result.Err? {
      return Err(ZeroTotalCost);
    }
    outcome := Ok(result.value);
  }

  /** `run_etl_internal`: download, filter, transform the limits, filter
      again, optimise, build the result; the first step that raises ends the
      run and the exception is swallowed. Python returns nothing; the returned
      value stands for the result `construct_result_step` saves through
      `repo.save_opt_result`, or for the exception that ended the run. */
  method RunEtlInternal(job: Job, fetched: map<string, PriceData>, individualDraws: seq<seq<nat>>,
                        draws: seq<Evolution.GenerationDraws>, bestPick: nat)
    returns (outcome: Result<OptimizationResult, EtlError>)
    modifies job
    ensures var p := PreparedLists(old(job.Lists()), old(job.stockLimit), old(job.budget), fetched);
      (p.Err? ==> outcome == Err(p.error) && job.status == PreparingData)
      && (p.Ok? && !AllNonNegative(p.value.maxStockCountList) ==>
            outcome == Err(NegativeLimit) && job.Lists() == p.value && job.status == Optimization)
      && (p.Ok? && AllNonNegative(p.value.maxStockCountList) ==>
            job.Lists() == p.value.(bestSet := job.bestSet) && job.status == Finished
            && job.bestSet == StockOptimize.Search(p.value.maxStockCountList, p.value.predictedPrices, p.value.currentPrices,
                                                   old(job.budget) as real, individualDraws, draws, bestPick)
            && (outcome.Ok? <==> Analyze.ConstructResult(job).Ok?)
            && (outcome.Ok? ==> Analyze.ConstructResult(job) == Ok(outcome.value))
            && (outcome.Err? ==> outcome == Err(ZeroTotalCost)))
    ensures outcome != Err(LimitDivisionByZero)
    ensures job.id == old(job.id) && job.stockLimit == old(job.stockLimit) && job.budget == old(job.budget)
    ensures job.predictPeriodDays == old(job.predictPeriodDays) && job.isBacktest == old(job.isBacktest)
  {
    PipelineNeverDividesByZero(job.Lists(), job.stockLimit, job.budget, fetched);
    var failure := PrepareJob(job, fetched);
    if failure.Some? {
      return Err(failure.value);
    }
    ghost var prepared := job.Lists();
    outcome := OptimizeAndReport(job, individualDraws, draws, bestPick);
    assert job.Lists() == prepared.(bestSet := job.bestSet);
  }
}
