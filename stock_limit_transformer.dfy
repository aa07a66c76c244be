/** `transform_stock_limit`: turning the job's stock-limit request into the
    per-stock maximum share counts the search bounds its genes by. */
module StockLimitTransformer {
  import opened Wrappers
  import opened Arith
  import opened Jobs

  /** The only error a transformation can raise: dividing by a zero price. */
  datatype TransformError = ZeroDivision

  /** `n` copies of `x`, as `[x for i in range(n)]`. */
  function Replicate<T>(x: T, n: nat): (r: seq<T>)
    ensures |r| == n && forall i :: 0 <= i < n ==> r[i] == x
  {
    seq(n, _ => x)
  }

  /** No zero price within the first `n` prices. */
  predicate NoZeroPriceBelow(prices: seq<real>, n: int)
  {
    forall i :: 0 <= i < n && i < |prices| ==> prices[i] != 0.0
  }

  /** `[int(total / price) for total, price in zip(totals, prices)]`: fails
      as soon as a zipped price is zero. */
  function Quotients(totals: seq<real>, prices: seq<real>): (r: Result<seq<int>, TransformError>)
    ensures r.Ok? <==> NoZeroPriceBelow(prices, |totals|)
    ensures r.Ok? ==> |r.value| == Min(|totals|, |prices|)
    ensures r.Ok? ==> forall i :: 0 <= i < |r.value| ==> r.value[i] == TruncToInt(totals[i] / prices[i])
    decreases |prices|
  {
    if |totals| == 0 || |prices| == 0 then Ok([])
    else if prices[0] == 0.0 then Err(ZeroDivision)
    else
      match Quotients(totals[1..], prices[1..])
      case Err(e) => Err(e)
      case Ok(rest) =>
        assert forall i :: 1 <= i < |totals| && i < |prices| ==> prices[1..][i - 1] == prices[i];
        Ok([TruncToInt(totals[0] / prices[0])] + rest)
  }

  /** For a non-negative total and a positive price the quotient is the
      largest share count the total pays for. */
  lemma QuotientBounds(total: real, price: real)
    requires total >= 0.0 && price > 0.0
    ensures var q := TruncToInt(total / price);
      0 <= q && q as real <= total / price && q as real * price <= total < (q + 1) as real * price
  {
    var x := total / price;
    assert x * price == total;
    var q := TruncToInt(x);
    assert q as real * price <= x * price;
    var gap := q as real + 1.0 - x;
    assert gap > 0.0;
    assert gap * price > 0.0;
    assert (q + 1) as real * price == x * price + gap * price;
    assert total < (q + 1) as real * price;
  }

  /** The six branches of `transform_stock_limit`, and any other type. */
  function StockLimits(limit: StockLimit, budget: int, stockCount: nat, currentPrices: seq<real>): (r: Result<seq<int>, TransformError>)
    ensures limit.limitType == Count && limit.commonLimit.None? ==> r == Ok(limit.limits)
    ensures limit.limitType == Count && limit.commonLimit.Some? ==>
      r.Ok? && |r.value| == stockCount && forall i :: 0 <= i < stockCount ==> r.value[i] == limit.commonLimit.value
    ensures limit.limitType == Price && limit.commonLimit.None? ==>
      (r.Ok? <==> NoZeroPriceBelow(currentPrices, |limit.limits|))
      && (r.Ok? ==> |r.value| == Min(|limit.limits|, |currentPrices|)
                    && forall i :: 0 <= i < |r.value| ==> r.value[i] == TruncToInt(limit.limits[i] as real / currentPrices[i]))
    ensures limit.limitType == Price && limit.commonLimit.Some? ==>
      (r.Ok? <==> NoZeroPriceBelow(currentPrices, |currentPrices|))
      && (r.Ok? ==> |r.value| == |currentPrices|
                    && forall i :: 0 <= i < |r.value| ==> r.value[i] == TruncToInt(limit.commonLimit.value as real / currentPrices[i]))
    ensures limit.limitType == Percent && limit.commonLimit.None? ==>
      (r.Ok? <==> NoZeroPriceBelow(currentPrices, |limit.limits|))
      && (r.Ok? ==> |r.value| == Min(|limit.limits|, |currentPrices|)
                    && forall i :: 0 <= i < |r.value| ==>
                         r.value[i] == TruncToInt(((budget * limit.limits[i]) as real / 100.0) / currentPrices[i]))
    ensures limit.limitType == Percent && limit.commonLimit.Some? ==>
      (r.Ok? <==> NoZeroPriceBelow(currentPrices, |currentPrices|))
      && (r.Ok? ==> |r.value| == |currentPrices|
                    && forall i :: 0 <= i < |r.value| ==>
                         r.value[i] == TruncToInt(((budget * limit.commonLimit.value) as real / 100.0) / currentPrices[i]))
    ensures limit.limitType == Other ==> r == Ok([])
  {
    match (limit.limitType, limit.commonLimit)
    case (Count, None) => Ok(limit.limits)
    case (Count, Some(c)) => Ok(Replicate(c, stockCount))
    case (Price, None) =>
      Quotients(seq(|limit.limits|, i requires 0 <= i < |limit.limits| => limit.limits[i] as real), currentPrices)
    case (Price, Some(c)) => Quotients(Replicate(c as real, |currentPrices|), currentPrices)
    case (Percent, None) =>
      Quotients(seq(|limit.limits|, i requires 0 <= i < |limit.limits| => (budget * limit.limits[i]) as real / 100.0), currentPrices)
    case (Percent, Some(c)) =>
      var totalPrice := (budget * c) as real / 100.0;
      Quotients(Replicate(totalPrice, |currentPrices|), currentPrices)
    case (Other, _) => Ok([])
  }

  /** Once no current price is zero, no branch can fail. */
  lemma StockLimitsSucceedWithoutZeroPrice(limit: StockLimit, budget: int, stockCount: nat, currentPrices: seq<real>)
    requires forall i :: 0 <= i < |currentPrices| ==> currentPrices[i] != 0.0
    ensures StockLimits(limit, budget, stockCount, currentPrices).Ok?
  {
  }

  /** A money limit and positive prices give counts whose cost stays within
      the limit, stock by stock. */
  lemma PriceLimitsAffordable(limit: StockLimit, budget: int, stockCount: nat, currentPrices: seq<real>, i: nat)
    requires limit.limitType == Price && limit.commonLimit.None?
    requires forall j :: 0 <= j < |limit.limits| ==> limit.limits[j] >= 0
    requires forall j :: 0 <= j < |currentPrices| ==> currentPrices[j] > 0.0
    requires i < |limit.limits| && i < |currentPrices|
    ensures var r := StockLimits(limit, budget, stockCount, currentPrices);
      r.Ok? && 0 <= r.value[i] && r.value[i] as real * currentPrices[i] <= limit.limits[i] as real
  {
    QuotientBounds(limit.limits[i] as real, currentPrices[i]);
  }

  /** `transform_stock_limit`: only `max_stock_count_list` is reassigned, and
      a division by zero leaves it as it was. */
  method TransformStockLimit(job: Job) returns (r: Result<(), TransformError>)
    modifies job`maxStockCountList
    ensures var limits := StockLimits(job.stockLimit, job.budget, |job.stockNames|, job.currentPrices);
      (r.Ok? <==> limits.Ok?)
      && (limits.Ok? ==> job.maxStockCountList == limits.value)
      && (limits.Err? ==> job.maxStockCountList == old(job.maxStockCountList))
  {
    var limits := StockLimits(job.stockLimit, job.budget, |job.stockNames|, job.currentPrices);
    match limits
    case Err(e) =>
      r := Err(e);
    case Ok(counts) =>
      job.maxStockCountList := counts;
      r := Ok(());
  }
}
