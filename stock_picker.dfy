/** The stock picker's index step: a shared counter reduced into the index
    range of the ETF list by repeated subtraction. */
module StockPicker {

  lemma MulAtLeast(k: int, n: int)
    requires k >= 1 && n > 0
    ensures k * n >= n
  {
  }

  /** Two remainders in `[0, n)` that differ by a multiple of `n` are equal. */
  lemma RemaindersEqual(k: int, n: int, m: int, m': int)
    requires n > 0 && 0 <= m < n && 0 <= m' < n && k * n == m' - m
    ensures k == 0
  {
    if k >= 1 {
      MulAtLeast(k, n);
    } else if k <= -1 {
      MulAtLeast(-k, n);
    }
  }

  /** A remainder in range is the Euclidean remainder. */
  lemma ModOfRemainder(a: int, n: int, q: int, r: int)
    requires n > 0 && 0 <= r < n && a == q * n + r
    ensures a % n == r
  {
    var d, m := a / n, a % n;
    assert a == d * n + m;
    assert (q - d) * n == q * n - d * n;
    RemaindersEqual(q - d, n, m, r);
  }

  /** `__calculate_index`: subtract the list length while the counter is at
      least the length. With an empty list a non-negative counter never
      drops below it, so the loop only terminates for a positive length or a
      negative counter. */
  method CalculateIndex(currentCounter: int, lenOfStocks: nat) returns (index: int)
    requires lenOfStocks > 0 || currentCounter < 0
    ensures currentCounter < lenOfStocks ==> index == currentCounter
    ensures currentCounter >= lenOfStocks ==> index == currentCounter % lenOfStocks
    ensures currentCounter >= 0 ==> 0 <= index < lenOfStocks
  {
    var tmpCounter := currentCounter;
    ghost var subtractions: nat := 0;
    while tmpCounter >= lenOfStocks
      invariant currentCounter == tmpCounter + subtractions * lenOfStocks
      invariant currentCounter >= 0 ==> tmpCounter >= 0
      invariant subtractions == 0 || (lenOfStocks > 0 && currentCounter >= lenOfStocks)
      decreases tmpCounter
    {
      tmpCounter := tmpCounter - lenOfStocks;
      subtractions := subtractions + 1;
    }
    if subtractions > 0 {
      ModOfRemainder(currentCounter, lenOfStocks, subtractions, tmpCounter);
    }
    index := tmpCounter;
  }
}
