/** The integer-allocation individual shared by every version of the
    allocator: one share count per stock, each bounded by that stock's
    maximum count. */
module Genes {
  import opened Wrappers

  /** The i-th raw random draw, or 0 when the supplied draws run out. */
  function DrawAt(draws: seq<nat>, i: int): nat
  {
    if 0 <= i < |draws| then draws[i] else 0
  }

  /** The draws consumed by the i-th generated individual, or none. */
  function IndividualDrawsAt(draws: seq<seq<nat>>, i: int): seq<nat>
  {
    if 0 <= i < |draws| then draws[i] else []
  }

  /** One gene per maximum count, each within `[0, max]`. */
  predicate Bounded(genes: seq<int>, maxCounts: seq<int>)
  {
    |genes| == |maxCounts| && forall i :: 0 <= i < |genes| ==> 0 <= genes[i] <= maxCounts[i]
  }

  /** `random.randint(0, m)` given the raw draw `d`. */
  function RandInt(d: nat, m: nat): (r: nat)
    ensures r <= m
    ensures d <= m ==> r == d
  {
    d % (m + 1)
  }

  /** `[random.randint(0, max_count) for max_count in max_count_data]`.
      `randint(0, m)` is modelled as the raw draw `d` reduced to `d % (m + 1)`;
      for a negative `m` Python raises ValueError ("empty range"), modelled as `None`. */
  function GenOneIndividual(maxCounts: seq<int>, draws: seq<nat>): (r: Option<seq<int>>)
    ensures r.Some? <==> forall i :: 0 <= i < |maxCounts| ==> maxCounts[i] >= 0
    ensures r.Some? ==> Bounded(r.value, maxCounts)
    ensures r.Some? ==> forall i :: 0 <= i < |maxCounts| && DrawAt(draws, i) <= maxCounts[i] ==> r.value[i] == DrawAt(draws, i)
  {
    if exists i :: 0 <= i < |maxCounts| && maxCounts[i] < 0 then None
    else Some(seq(|maxCounts|, i requires 0 <= i < |maxCounts| && maxCounts[i] >= 0 => RandInt(DrawAt(draws, i), maxCounts[i])))
  }

  /** Every bounded allocation can be generated: the generator reaches the whole search space. */
  lemma GeneratesEveryBoundedAllocation(genes: seq<int>, maxCounts: seq<int>)
    requires Bounded(genes, maxCounts)
    ensures exists draws: seq<nat> :: GenOneIndividual(maxCounts, draws) == Some(genes)
  {
    var draws: seq<nat> := seq(|genes|, i requires 0 <= i < |genes| => genes[i] as nat);
    var r := GenOneIndividual(maxCounts, draws);
    assert forall i :: 0 <= i < |maxCounts| ==> DrawAt(draws, i) == genes[i];
    assert r.value == genes;
  }
}
