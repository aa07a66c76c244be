/** The forecast analyser: the last observed and the last predicted price of
    a stock, whether it is growing, and the record it returns. Plotting, the
    saved figure and the ticker lookups are external; their results are
    parameters. */
module Analyzer {
  import opened Wrappers
  import opened Arith

  /** The record `analyses` returns. */
  datatype StockData = StockData(
    tickerSymbol: string,
    stockName: string,
    currency: string,
    currentPrice: real,
    predictPrice: real,
    fileName: string,
    isStockGrowing: bool)

  /** `__is_stock_growing`. */
  predicate IsStockGrowing(currentPrice: real, lastPredictedPrice: real)
  {
    currentPrice <= lastPredictedPrice
  }

  /** `__last_price`: the value in the column's last row, rounded to two
      decimals; an empty column has no last row (the lookup raises). */
  function LastPrice(column: seq<real>): (r: Option<real>)
    ensures r.Some? <==> |column| > 0
    ensures r.Some? ==> r.value == Round2(column[|column| - 1])
  {
    if |column| == 0 then None else Some(Round2(column[|column| - 1]))
  }

  /** A last value that already has two decimals is returned as it is; the
      analyser's tests expect 104.2 from the closing prices below. */
  lemma LastPriceOfClosingPrices()
    ensures LastPrice([100.0, 101.5, 102.3, 103.7, 104.2]) == Some(104.2)
  {
    Round2OfCents(10420);
    assert 10420 as real / 100.0 == 104.2;
  }

  /** `analyses`: the current price is the last observed `y`, the predicted
      price the last predicted `yhat`, growth compares the two, and the plot
      is saved under the ticker's name. */
  function Analyses(tickerSymbol: string, historicY: seq<real>, predictedYhat: seq<real>, shortName: string, currency: string)
    : (r: Option<StockData>)
    ensures r.Some? <==> |historicY| > 0 && |predictedYhat| > 0
    ensures r.Some? ==>
      r.value.tickerSymbol == tickerSymbol && r.value.stockName == shortName && r.value.currency == currency
      && Some(r.value.currentPrice) == LastPrice(historicY) && Some(r.value.predictPrice) == LastPrice(predictedYhat)
      && (r.value.isStockGrowing <==> r.value.currentPrice <= r.value.predictPrice)
      && r.value.fileName == tickerSymbol + ".png"
  {
    match (LastPrice(historicY), LastPrice(predictedYhat))
    case (Some(currentPrice), Some(lastPredictedPrice)) =>
      Some(StockData(tickerSymbol, shortName, currency, currentPrice, lastPredictedPrice,
                     tickerSymbol + ".png", IsStockGrowing(currentPrice, lastPredictedPrice)))
    case _ => None
  }

  /** A stock is reported growing exactly when its rounded forecast is not
      below its rounded current price. */
  lemma GrowingIffForecastNotBelow(tickerSymbol: string, historicY: seq<real>, predictedYhat: seq<real>, shortName: string, currency: string)
    requires |historicY| > 0 && |predictedYhat| > 0
    ensures Analyses(tickerSymbol, historicY, predictedYhat, shortName, currency).value.isStockGrowing
      <==> Round2(historicY[|historicY| - 1]) <= Round2(predictedYhat[|predictedYhat| - 1])
  {
  }
}
