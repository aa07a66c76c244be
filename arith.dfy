/** Arithmetic shared by every version of the allocator: the zip-and-sum
    `sum(x * y for x, y in zip(xs, counts))`, Python's `int(...)` truncation and
    Python's `round(..., 2)` on exact reals. */
module Arith {

  function Min(a: int, b: int): int { if a <= b then a else b }

  function Max(a: int, b: int): int { if a <= b then b else a }

  /** Python's `abs` on a float. */
  function Abs(x: real): real { if x < 0.0 then -x else x }

  /** DEAP's fitness comparison on weighted values: tuples compare
      lexicographically, the first objective deciding unless it ties. */
  predicate LexGreater(a: (real, real), b: (real, real))
  {
    a.0 > b.0 || (a.0 == b.0 && a.1 > b.1)
  }

  /** `sum(x * y for x, y in zip(xs, counts))`: zip stops at the shorter list. */
  function Dot(xs: seq<real>, counts: seq<int>): real
    decreases |xs|
  {
    if |xs| == 0 || |counts| == 0 then 0.0
    else xs[0] * counts[0] as real + Dot(xs[1..], counts[1..])
  }

  /** `[x * y for x, y in zip(xs, counts)]`. */
  function Products(xs: seq<real>, counts: seq<int>): (r: seq<real>)
    ensures |r| == Min(|xs|, |counts|)
    ensures forall i :: 0 <= i < |r| ==> r[i] == xs[i] * counts[i] as real
  {
    seq(Min(|xs|, |counts|), i requires 0 <= i < Min(|xs|, |counts|) => xs[i] * counts[i] as real)
  }

  /** Python's `sum(s)`. */
  function Sum(s: seq<real>): real
  {
    if |s| == 0 then 0.0 else s[0] + Sum(s[1..])
  }

  /** The pairwise difference `[a - b for a, b in zip(xs, ys)]`. */
  function Diff(xs: seq<real>, ys: seq<real>): (r: seq<real>)
    ensures |r| == Min(|xs|, |ys|)
    ensures forall i :: 0 <= i < |r| ==> r[i] == xs[i] - ys[i]
  {
    seq(Min(|xs|, |ys|), i requires 0 <= i < Min(|xs|, |ys|) => xs[i] - ys[i])
  }

  predicate AllZero(counts: seq<int>)
  {
    forall i :: 0 <= i < |counts| ==> counts[i] == 0
  }

  predicate AllNonNegative(counts: seq<int>)
  {
    forall i :: 0 <= i < |counts| ==> counts[i] >= 0
  }

  predicate AllNonNegativeReals(xs: seq<real>)
  {
    forall i :: 0 <= i < |xs| ==> xs[i] >= 0.0
  }

  /** The total of the per-stock list is the zipped sum. */
  lemma {:induction false} SumOfProducts(xs: seq<real>, counts: seq<int>)
    ensures Sum(Products(xs, counts)) == Dot(xs, counts)
    decreases |xs|
  {
    if |xs| != 0 && |counts| != 0 {
      SumOfProducts(xs[1..], counts[1..]);
      var p, q := Products(xs, counts), Products(xs[1..], counts[1..]);
      assert |p[1..]| == |q|;
      assert forall i :: 0 <= i < |q| ==> p[1..][i] == q[i];
      assert p[1..] == q;
    }
  }

  /** Buying nothing costs nothing, whatever the prices. */
  lemma {:induction false} DotOfZeroCounts(xs: seq<real>, counts: seq<int>)
    requires AllZero(counts)
    ensures Dot(xs, counts) == 0.0
    decreases |xs|
  {
    if |xs| != 0 && |counts| != 0 {
      DotOfZeroCounts(xs[1..], counts[1..]);
    }
  }

  /** Non-negative prices and counts give a non-negative total. */
  lemma {:induction false} DotNonNegative(xs: seq<real>, counts: seq<int>)
    requires AllNonNegativeReals(xs) && AllNonNegative(counts)
    ensures Dot(xs, counts) >= 0.0
    decreases |xs|
  {
    if |xs| != 0 && |counts| != 0 {
      DotNonNegative(xs[1..], counts[1..]);
      assert xs[0] * counts[0] as real >= 0.0;
    }
  }

  /** Two zipped sums over the same counts subtract position by position. */
  lemma {:induction false} DotOfDiff(xs: seq<real>, ys: seq<real>, counts: seq<int>)
    requires |xs| == |ys|
    ensures Dot(xs, counts) - Dot(ys, counts) == Dot(Diff(xs, ys), counts)
    decreases |xs|
  {
    if |xs| != 0 && |counts| != 0 {
      DotOfDiff(xs[1..], ys[1..], counts[1..]);
      assert Diff(xs, ys)[1..] == Diff(xs[1..], ys[1..]);
      assert (xs[0] - ys[0]) * counts[0] as real == xs[0] * counts[0] as real - ys[0] * counts[0] as real;
    }
  }

  /** Changing one price moves the zipped sum by exactly that price's change
      times the count held at that position. */
  lemma {:induction false} DotUpdate(xs: seq<real>, counts: seq<int>, k: nat, v: real)
    requires k < |xs| && k < |counts|
    ensures Dot(xs[k := v], counts) == Dot(xs, counts) + (v - xs[k]) * counts[k] as real
    decreases |xs|
  {
    if k == 0 {
      assert xs[k := v][1..] == xs[1..];
      assert v * counts[0] as real == xs[0] * counts[0] as real + (v - xs[0]) * counts[0] as real;
    } else {
      DotUpdate(xs[1..], counts[1..], k - 1, v);
      assert xs[k := v][1..] == xs[1..][k - 1 := v];
    }
  }

  /** Python's `int(x)` on a float: truncation toward zero. */
  function TruncToInt(x: real): (r: int)
    ensures x >= 0.0 ==> 0 <= r && r as real <= x < r as real + 1.0
    ensures x < 0.0 ==> r <= 0 && r as real - 1.0 < x <= r as real
  {
    if x >= 0.0 then x.Floor else -((-x).Floor)
  }

  /** Rounding half to even of an exact real to an integer, as Python's `round`. */
  function RoundHalfEven(y: real): (n: int)
    ensures y - 0.5 <= n as real <= y + 0.5
    ensures y - 0.5 < n as real < y + 0.5 || n % 2 == 0
  {
    var f := y.Floor;
    var frac := y - f as real;
    if frac < 0.5 then f
    else if frac > 0.5 then f + 1
    else if f % 2 == 0 then f
    else f + 1
  }

  /** Python's `round(x, 2)`, on exact reals (binary floating point is not modelled). */
  function Round2(x: real): (r: real)
    ensures x - 0.005 <= r <= x + 0.005
    ensures (r * 100.0).Floor as real == r * 100.0
  {
    var n := RoundHalfEven(x * 100.0);
    assert (n as real / 100.0) * 100.0 == n as real;
    n as real / 100.0
  }

  /** A value that already has at most two decimals is returned unchanged. */
  lemma Round2OfCents(k: int)
    ensures Round2(k as real / 100.0) == k as real / 100.0
  {
    var y := (k as real / 100.0) * 100.0;
    assert y == k as real;
    assert y.Floor == k;
  }

  /** Rounding twice is rounding once. */
  lemma Round2Idempotent(x: real)
    ensures Round2(Round2(x)) == Round2(x)
  {
    Round2OfCents(RoundHalfEven(x * 100.0));
  }

  /** The difference of two rounded amounts is whole cents, so rounding it
      again changes nothing. */
  lemma Round2OfDifference(x: real, y: real)
    ensures Round2(Round2(x) - Round2(y)) == Round2(x) - Round2(y)
  {
    var a := (Round2(x) * 100.0).Floor;
    var b := (Round2(y) * 100.0).Floor;
    assert Round2(x) - Round2(y) == (a - b) as real / 100.0;
    Round2OfCents(a - b);
  }

  /** Rounding a non-negative amount never makes it negative. */
  lemma Round2NonNegative(x: real)
    requires x >= 0.0
    ensures Round2(x) >= 0.0
  {
    var n := RoundHalfEven(x * 100.0);
    assert n as real >= -0.5;
    assert n >= 0;
  }
}
