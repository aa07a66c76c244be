/** The explicit generational loop of the allocator (the `optimize(toolbox)`
    loop): evaluate the initial population once, then for a fixed number of
    generations select as many individuals as the population holds, clone them,
    cross adjacent pairs, mutate, and replace the population wholesale.

    Randomness is supplied as input: per generation, the tournament picks, the
    `random.random()` coins and the operators' own draws. DEAP's operators are
    abstract steps with the shape their call sites rely on: selection returns
    `len(pop)` members of `pop`, two-point crossover swaps one segment of the two
    gene lists, mutation replaces some genes and keeps the rest. */
module Evolution {
  import opened Wrappers
  import opened Arith

  /** Probability with which two adjacent offspring are crossed. */
  const CXPB: real := 0.5
  /** Probability with which one offspring is mutated. */
  const MUTPB: real := 0.2
  const NUMBER_OF_ITERATIONS: nat := 100
  const POPULATION_SIZE: nat := 300

  /** A DEAP individual: its gene list and its fitness, `None` once deleted. */
  datatype Individual<F> = Individual(genes: seq<int>, fitness: Option<F>)

  /** Two cut points for a two-point crossover, in either order. */
  datatype Cut = Cut(first: nat, second: nat)

  /** The random draws consumed by one generation. A change list gives, per
      gene, the value DEAP's mutation writes there, or `None` to keep it. */
  datatype GenerationDraws = GenerationDraws(
    picks: seq<nat>,
    mateCoins: seq<real>,
    cuts: seq<Cut>,
    mutateCoins: seq<real>,
    changes: seq<seq<Option<int>>>)

  function PickAt(picks: seq<nat>, i: int): nat
  {
    if 0 <= i < |picks| then picks[i] else 0
  }

  /** A `random.random()` draw; a missing draw reads as 1.0, which never fires. */
  function CoinAt(coins: seq<real>, i: int): real
  {
    if 0 <= i < |coins| then coins[i] else 1.0
  }

  function CutAt(cuts: seq<Cut>, i: int): Cut
  {
    if 0 <= i < |cuts| then cuts[i] else Cut(0, 0)
  }

  function ChangeAt(changes: seq<seq<Option<int>>>, i: int): seq<Option<int>>
  {
    if 0 <= i < |changes| then changes[i] else []
  }

  function DrawsAt(draws: seq<GenerationDraws>, g: int): GenerationDraws
  {
    if 0 <= g < |draws| then draws[g] else GenerationDraws([], [], [], [], [])
  }

  /** `toolbox.select(pop, len(pop))`: as many individuals as the population holds. */
  function Select<F>(pop: seq<Individual<F>>, picks: seq<nat>): (offspring: seq<Individual<F>>)
    ensures |offspring| == |pop|
  {
    seq(|pop|, i requires 0 <= i < |pop| => pop[PickAt(picks, i) % |pop|])
  }

  /** Every selected individual is a member of the population it was selected from. */
  lemma SelectPicksMembers<F>(pop: seq<Individual<F>>, picks: seq<nat>, i: nat)
    requires i < |pop|
    ensures Select(pop, picks)[i] in pop
  {
    assert Select(pop, picks)[i] == pop[PickAt(picks, i) % |pop|];
  }

  /** `tools.cxTwoPoint` on two gene lists: the segment between the cut points
      (clamped to the shorter list) is exchanged. */
  function TwoPoint(a: seq<int>, b: seq<int>, cut: Cut): (children: (seq<int>, seq<int>))
    ensures |children.0| == |a| && |children.1| == |b|
  {
    var size := Min(|a|, |b|);
    var lo := Min(Min(cut.first, cut.second), size);
    var hi := Min(Max(cut.first, cut.second), size);
    (seq(|a|, i requires 0 <= i < |a| => if lo <= i < hi then b[i] else a[i]),
     seq(|b|, i requires 0 <= i < |b| => if lo <= i < hi then a[i] else b[i]))
  }

  /** At each position the two children hold the parents' two values, either
      kept or exchanged; past the shorter list nothing moves. */
  lemma TwoPointExchanges(a: seq<int>, b: seq<int>, cut: Cut, i: nat)
    ensures var c := TwoPoint(a, b, cut);
      (i < Min(|a|, |b|) ==> (c.0[i] == a[i] && c.1[i] == b[i]) || (c.0[i] == b[i] && c.1[i] == a[i]))
      && (Min(|a|, |b|) <= i < |a| ==> c.0[i] == a[i])
      && (Min(|a|, |b|) <= i < |b| ==> c.1[i] == b[i])
  {
  }

  /** Crossing the children again at the same cut points gives back the parents. */
  lemma TwoPointInvolution(a: seq<int>, b: seq<int>, cut: Cut)
    ensures TwoPoint(TwoPoint(a, b, cut).0, TwoPoint(a, b, cut).1, cut) == (a, b)
  {
    var c := TwoPoint(a, b, cut);
    var d := TwoPoint(c.0, c.1, cut);
    assert d.0 == a;
    assert d.1 == b;
  }

  /** Crossing two individuals bounded by the same maximum counts keeps both bounded. */
  lemma TwoPointKeepsBounds(a: seq<int>, b: seq<int>, cut: Cut, maxCounts: seq<int>)
    requires |a| == |b| == |maxCounts|
    requires forall i :: 0 <= i < |a| ==> 0 <= a[i] <= maxCounts[i] && 0 <= b[i] <= maxCounts[i]
    ensures var c := TwoPoint(a, b, cut);
      forall i :: 0 <= i < |a| ==> 0 <= c.0[i] <= maxCounts[i] && 0 <= c.1[i] <= maxCounts[i]
  {
    forall i | 0 <= i < |a| {
      TwoPointExchanges(a, b, cut, i);
    }
  }

  /** One pair `(child1, child2)`: crossed when its coin is below CXPB, and then
      both children lose their fitness. */
  function MatePair<F>(child1: Individual<F>, child2: Individual<F>, coin: real, cut: Cut): (Individual<F>, Individual<F>)
  {
    if coin < CXPB then
      var children := TwoPoint(child1.genes, child2.genes, cut);
      (Individual(children.0, None), Individual(children.1, None))
    else
      (child1, child2)
  }

  /** Pair `k` of the offspring list after mating. */
  function PairAt<F>(offspring: seq<Individual<F>>, coins: seq<real>, cuts: seq<Cut>, k: nat): (Individual<F>, Individual<F>)
    requires 2 * k + 1 < |offspring|
  {
    MatePair(offspring[2 * k], offspring[2 * k + 1], CoinAt(coins, k), CutAt(cuts, k))
  }

  /** Pairs `k`, `k + 1`, ... of the offspring list after mating, followed by
      an odd trailing individual when there is one. */
  function CrossFrom<F>(offspring: seq<Individual<F>>, coins: seq<real>, cuts: seq<Cut>, k: nat): (r: seq<Individual<F>>)
    requires 2 * k <= |offspring|
    ensures |r| == |offspring| - 2 * k
    decreases |offspring| - 2 * k
  {
    if 2 * k + 1 < |offspring| then
      var pair := PairAt(offspring, coins, cuts, k);
      [pair.0, pair.1] + CrossFrom(offspring, coins, cuts, k + 1)
    else
      offspring[2 * k..]
  }

  /** Crossing adjacent pairs: `offspring[2k]` is mated with `offspring[2k + 1]`. */
  function Crossover<F>(offspring: seq<Individual<F>>, coins: seq<real>, cuts: seq<Cut>): (r: seq<Individual<F>>)
    ensures |r| == |offspring|
  {
    CrossFrom(offspring, coins, cuts, 0)
  }

  lemma {:induction false} CrossFromAt<F>(offspring: seq<Individual<F>>, coins: seq<real>, cuts: seq<Cut>, m: nat, k: nat)
    requires m <= k && 2 * k + 1 < |offspring|
    ensures var r := CrossFrom(offspring, coins, cuts, m);
      var pair := PairAt(offspring, coins, cuts, k);
      r[2 * (k - m)] == pair.0 && r[2 * (k - m) + 1] == pair.1
    decreases k - m
  {
    if m < k {
      CrossFromAt(offspring, coins, cuts, m + 1, k);
    }
  }

  lemma {:induction false} CrossFromTrailing<F>(offspring: seq<Individual<F>>, coins: seq<real>, cuts: seq<Cut>, m: nat)
    requires 2 * m < |offspring| && |offspring| % 2 == 1
    ensures CrossFrom(offspring, coins, cuts, m)[|offspring| - 1 - 2 * m] == offspring[|offspring| - 1]
    decreases |offspring| - 2 * m
  {
    if 2 * m + 1 < |offspring| {
      CrossFromTrailing(offspring, coins, cuts, m + 1);
    }
  }

  lemma {:induction false} CrossFromElement<F>(offspring: seq<Individual<F>>, coins: seq<real>, cuts: seq<Cut>, m: nat, j: nat)
    requires 2 * m <= j < |offspring|
    ensures var r := CrossFrom(offspring, coins, cuts, m);
      |r[j - 2 * m].genes| == |offspring[j].genes| && (r[j - 2 * m] == offspring[j] || r[j - 2 * m].fitness.None?)
    decreases |offspring| - 2 * m
  {
    if 2 * m + 1 < |offspring| && j >= 2 * m + 2 {
      CrossFromElement(offspring, coins, cuts, m + 1, j);
    }
  }

  /** Only `offspring[2k]` and `offspring[2k + 1]` are paired; a pair whose coin
      is below CXPB is crossed and both children lose their fitness, any other
      pair is left as it was. */
  lemma CrossoverPairs<F>(offspring: seq<Individual<F>>, coins: seq<real>, cuts: seq<Cut>, k: nat)
    requires 2 * k + 1 < |offspring|
    ensures var r := Crossover(offspring, coins, cuts);
      var children := TwoPoint(offspring[2 * k].genes, offspring[2 * k + 1].genes, CutAt(cuts, k));
      if CoinAt(coins, k) < CXPB then
        r[2 * k] == Individual(children.0, None) && r[2 * k + 1] == Individual(children.1, None)
      else
        r[2 * k] == offspring[2 * k] && r[2 * k + 1] == offspring[2 * k + 1]
  {
    CrossFromAt(offspring, coins, cuts, 0, k);
  }

  /** An odd trailing individual has no partner and is never crossed. */
  lemma CrossoverSkipsOddTrailing<F>(offspring: seq<Individual<F>>, coins: seq<real>, cuts: seq<Cut>)
    requires |offspring| % 2 == 1
    ensures Crossover(offspring, coins, cuts)[|offspring| - 1] == offspring[|offspring| - 1]
  {
    CrossFromTrailing(offspring, coins, cuts, 0);
  }

  /** Every position keeps its gene count, and either keeps its individual or
      loses its fitness. */
  lemma CrossoverElement<F>(offspring: seq<Individual<F>>, coins: seq<real>, cuts: seq<Cut>, j: nat)
    requires j < |offspring|
    ensures var r := Crossover(offspring, coins, cuts);
      |r[j].genes| == |offspring[j].genes| && (r[j] == offspring[j] || r[j].fitness.None?)
  {
    CrossFromElement(offspring, coins, cuts, 0, j);
  }

  /** DEAP's mutation on one gene list, in the shape its call site relies on:
      the length is kept and the genes it does not touch keep their values. */
  function Mutate(genes: seq<int>, change: seq<Option<int>>): (r: seq<int>)
    ensures |r| == |genes|
    ensures forall i :: 0 <= i < |genes| && (i >= |change| || change[i].None?) ==> r[i] == genes[i]
  {
    seq(|genes|, i requires 0 <= i < |genes| => if i < |change| && change[i].Some? then change[i].value else genes[i])
  }

  function MutatedAt<F>(offspring: seq<Individual<F>>, coins: seq<real>, changes: seq<seq<Option<int>>>, j: nat): Individual<F>
    requires j < |offspring|
  {
    if CoinAt(coins, j) < MUTPB then Individual(Mutate(offspring[j].genes, ChangeAt(changes, j)), None)
    else offspring[j]
  }

  /** Mutating each offspring, position by position. */
  function Mutation<F>(offspring: seq<Individual<F>>, coins: seq<real>, changes: seq<seq<Option<int>>>): (r: seq<Individual<F>>)
    ensures |r| == |offspring|
  {
    seq(|offspring|, j requires 0 <= j < |offspring| => MutatedAt(offspring, coins, changes, j))
  }

  /** Each offspring is mutated when its coin is below MUTPB, and only those
      lose their fitness; the others are left exactly as they were. */
  lemma MutationOnlyTouchesMutants<F>(offspring: seq<Individual<F>>, coins: seq<real>, changes: seq<seq<Option<int>>>, j: nat)
    requires j < |offspring|
    ensures var r := Mutation(offspring, coins, changes);
      if CoinAt(coins, j) < MUTPB then
        r[j].fitness.None? && r[j].genes == Mutate(offspring[j].genes, ChangeAt(changes, j))
      else
        r[j] == offspring[j]
  {
    assert Mutation(offspring, coins, changes)[j] == MutatedAt(offspring, coins, changes, j);
  }

  /** One generation: select and clone, cross, mutate; the result replaces the population. */
  function Generation<F>(pop: seq<Individual<F>>, d: GenerationDraws): (next: seq<Individual<F>>)
    ensures |next| == |pop|
  {
    Mutation(Crossover(Select(pop, d.picks), d.mateCoins, d.cuts), d.mutateCoins, d.changes)
  }

  /** The population after `g` generations; its size never changes. */
  function Evolve<F>(pop: seq<Individual<F>>, draws: seq<GenerationDraws>, g: nat): (r: seq<Individual<F>>)
    ensures |r| == |pop|
  {
    if g == 0 then pop else Generation(Evolve(pop, draws, g - 1), DrawsAt(draws, g - 1))
  }

  /** The evaluated initial population: `toolbox.population(n=300)`, then one
      evaluation per individual. */
  function InitialPopulation<F>(gen: nat -> seq<int>, eval: seq<int> -> F): (pop: seq<Individual<F>>)
    ensures |pop| == POPULATION_SIZE
    ensures forall i :: 0 <= i < |pop| ==> pop[i].genes == gen(i) && pop[i].fitness == Some(eval(gen(i)))
  {
    seq(POPULATION_SIZE, i requires 0 <= i < POPULATION_SIZE => Individual(gen(i), Some(eval(gen(i)))))
  }

  /** Every fitness present is that of the individual's current genes. */
  ghost predicate FitnessCurrent<F>(pop: seq<Individual<F>>, eval: seq<int> -> F)
  {
    forall i :: 0 <= i < |pop| ==> IsCurrent(pop[i], eval)
  }

  ghost predicate IsCurrent<F>(ind: Individual<F>, eval: seq<int> -> F)
  {
    ind.fitness.Some? ==> ind.fitness.value == eval(ind.genes)
  }

  predicate UniformLength<F>(pop: seq<Individual<F>>, n: nat)
  {
    forall i :: 0 <= i < |pop| ==> |pop[i].genes| == n
  }

  /** Every fitness present in the population is one of `values`. */
  ghost predicate FitnessesAmong<F>(pop: seq<Individual<F>>, values: set<F>)
  {
    forall ind :: ind in pop ==> HasFitnessAmong(ind, values)
  }

  ghost predicate HasFitnessAmong<F>(ind: Individual<F>, values: set<F>)
  {
    ind.fitness.Some? ==> ind.fitness.value in values
  }

  /** The fitness values present in a population. */
  ghost function Fitnesses<F>(pop: seq<Individual<F>>): (values: set<F>)
    ensures FitnessesAmong(pop, values)
  {
    set ind | ind in pop && ind.fitness.Some? :: ind.fitness.value
  }

  lemma GenerationKeepsGeneLength<F>(pop: seq<Individual<F>>, d: GenerationDraws, n: nat)
    requires UniformLength(pop, n)
    ensures UniformLength(Generation(pop, d), n)
  {
    var s := Select(pop, d.picks);
    assert UniformLength(s, n);
    var c := Crossover(s, d.mateCoins, d.cuts);
    assert UniformLength(c, n) by {
      forall j | 0 <= j < |c| ensures |c[j].genes| == n {
        CrossoverElement(s, d.mateCoins, d.cuts, j);
      }
    }
  }

  /** Every individual keeps the common gene length for the whole run. */
  lemma {:induction false} EvolveKeepsGeneLength<F>(pop: seq<Individual<F>>, draws: seq<GenerationDraws>, g: nat, n: nat)
    requires UniformLength(pop, n)
    ensures UniformLength(Evolve(pop, draws, g), n)
  {
    if g > 0 {
      EvolveKeepsGeneLength(pop, draws, g - 1, n);
      EvolveStepKeepsGeneLength(pop, draws, g, n);
    }
  }

  lemma EvolveStepKeepsGeneLength<F>(pop: seq<Individual<F>>, draws: seq<GenerationDraws>, g: nat, n: nat)
    requires g > 0 && UniformLength(Evolve(pop, draws, g - 1), n)
    ensures UniformLength(Evolve(pop, draws, g), n)
  {
    GenerationKeepsGeneLength(Evolve(pop, draws, g - 1), DrawsAt(draws, g - 1), n);
  }

  lemma GenerationKeepsFitnessCurrent<F>(pop: seq<Individual<F>>, d: GenerationDraws, eval: seq<int> -> F)
    requires FitnessCurrent(pop, eval)
    ensures FitnessCurrent(Generation(pop, d), eval)
  {
    var s := Select(pop, d.picks);
    assert FitnessCurrent(s, eval) by {
      forall i | 0 <= i < |s| ensures IsCurrent(s[i], eval) {
        assert s[i] == pop[PickAt(d.picks, i) % |pop|];
      }
    }
    var c := Crossover(s, d.mateCoins, d.cuts);
    assert FitnessCurrent(c, eval) by {
      forall j | 0 <= j < |c| ensures IsCurrent(c[j], eval) {
        CrossoverElement(s, d.mateCoins, d.cuts, j);
      }
    }
    var m := Generation(pop, d);
    assert FitnessCurrent(m, eval) by {
      forall j | 0 <= j < |m| ensures IsCurrent(m[j], eval) {
        assert m[j] == MutatedAt(c, d.mutateCoins, d.changes, j);
      }
    }
  }

  /** No fitness is ever stale: a fitness the loop leaves in place belongs to
      the genes it was computed for, because every individual whose genes change
      loses its fitness. */
  lemma {:induction false} EvolveKeepsFitnessCurrent<F>(pop: seq<Individual<F>>, draws: seq<GenerationDraws>, g: nat, eval: seq<int> -> F)
    requires FitnessCurrent(pop, eval)
    ensures FitnessCurrent(Evolve(pop, draws, g), eval)
  {
    if g > 0 {
      EvolveKeepsFitnessCurrent(pop, draws, g - 1, eval);
      EvolveStepKeepsFitnessCurrent(pop, draws, g, eval);
    }
  }

  lemma EvolveStepKeepsFitnessCurrent<F>(pop: seq<Individual<F>>, draws: seq<GenerationDraws>, g: nat, eval: seq<int> -> F)
    requires g > 0 && FitnessCurrent(Evolve(pop, draws, g - 1), eval)
    ensures FitnessCurrent(Evolve(pop, draws, g), eval)
  {
    GenerationKeepsFitnessCurrent(Evolve(pop, draws, g - 1), DrawsAt(draws, g - 1), eval);
  }

  lemma GenerationComputesNoFitness<F>(pop: seq<Individual<F>>, d: GenerationDraws, values: set<F>)
    requires FitnessesAmong(pop, values)
    ensures FitnessesAmong(Generation(pop, d), values)
  {
    var s := Select(pop, d.picks);
    assert FitnessesAmong(s, values) by {
      forall ind | ind in s ensures HasFitnessAmong(ind, values) {
        var i :| 0 <= i < |s| && s[i] == ind;
        SelectPicksMembers(pop, d.picks, i);
      }
    }
    var c := Crossover(s, d.mateCoins, d.cuts);
    assert FitnessesAmong(c, values) by {
      forall ind | ind in c ensures HasFitnessAmong(ind, values) {
        var j :| 0 <= j < |c| && c[j] == ind;
        CrossoverElement(s, d.mateCoins, d.cuts, j);
        assert s[j] in s;
      }
    }
    var m := Generation(pop, d);
    assert FitnessesAmong(m, values) by {
      forall ind | ind in m ensures HasFitnessAmong(ind, values) {
        var j :| 0 <= j < |m| && m[j] == ind;
        assert m[j] == MutatedAt(c, d.mutateCoins, d.changes, j);
        assert c[j] in c;
      }
    }
  }

  /** Nothing inside the loop evaluates: every fitness in the population after
      any number of generations was already present before them. */
  lemma {:induction false} EvolveComputesNoFitness<F>(pop: seq<Individual<F>>, draws: seq<GenerationDraws>, g: nat)
    ensures FitnessesAmong(Evolve(pop, draws, g), Fitnesses(pop))
  {
    EvolveKeepsFitnessesAmong(pop, draws, g, Fitnesses(pop));
  }

  lemma {:induction false} EvolveKeepsFitnessesAmong<F>(pop: seq<Individual<F>>, draws: seq<GenerationDraws>, g: nat, values: set<F>)
    requires FitnessesAmong(pop, values)
    ensures FitnessesAmong(Evolve(pop, draws, g), values)
  {
    if g > 0 {
      EvolveKeepsFitnessesAmong(pop, draws, g - 1, values);
      EvolveStepKeepsFitnessesAmong(pop, draws, g, values);
    }
  }

  lemma EvolveStepKeepsFitnessesAmong<F>(pop: seq<Individual<F>>, draws: seq<GenerationDraws>, g: nat, values: set<F>)
    requires g > 0 && FitnessesAmong(Evolve(pop, draws, g - 1), values)
    ensures FitnessesAmong(Evolve(pop, draws, g), values)
  {
    GenerationComputesNoFitness(Evolve(pop, draws, g - 1), DrawsAt(draws, g - 1), values);
  }

  /** `toolbox.select(pop, len(pop))` followed by `map(toolbox.clone, ...)`:
      the clones are a fresh list, independent of the population. */
  method SelectAndClone<F>(pop: array<Individual<F>>, picks: seq<nat>) returns (offspring: array<Individual<F>>)
    ensures fresh(offspring)
    ensures offspring[..] == Select(pop[..], picks)
  {
    var selected := Select(pop[..], picks);
    offspring := new Individual<F>[|selected|](i requires 0 <= i < |selected| => selected[i]);
  }

  /** The first `k` pairs of the offspring list after mating, in order: the
      part of the list the pair loop has finished after `k` rounds. */
  function CrossedPairs<F>(offspring: seq<Individual<F>>, coins: seq<real>, cuts: seq<Cut>, k: nat): (r: seq<Individual<F>>)
    requires 2 * k <= |offspring|
    ensures |r| == 2 * k
  {
    if k == 0 then []
    else
      var pair := PairAt(offspring, coins, cuts, k - 1);
      CrossedPairs(offspring, coins, cuts, k - 1) + [pair.0, pair.1]
  }

  /** The finished pairs followed by the remaining ones, mated, give the whole crossover. */
  lemma {:induction false} CrossedPairsThenRest<F>(offspring: seq<Individual<F>>, coins: seq<real>, cuts: seq<Cut>, k: nat)
    requires 2 * k <= |offspring|
    ensures CrossedPairs(offspring, coins, cuts, k) + CrossFrom(offspring, coins, cuts, k) == Crossover(offspring, coins, cuts)
  {
    if k > 0 {
      CrossedPairsThenRest(offspring, coins, cuts, k - 1);
      var pair := PairAt(offspring, coins, cuts, k - 1);
      var done := CrossedPairs(offspring, coins, cuts, k - 1);
      assert CrossFrom(offspring, coins, cuts, k - 1) == [pair.0, pair.1] + CrossFrom(offspring, coins, cuts, k);
      assert done + [pair.0, pair.1] + CrossFrom(offspring, coins, cuts, k) == done + ([pair.0, pair.1] + CrossFrom(offspring, coins, cuts, k));
    }
  }

  /** Mating pair `k` in a list whose first `k` pairs are already mated and
      whose rest is untouched extends the mated prefix by one pair. */
  lemma CrossedPairsStep<F>(before: seq<Individual<F>>, coins: seq<real>, cuts: seq<Cut>, k: nat, current: seq<Individual<F>>)
    requires 2 * k + 1 < |before|
    requires current == CrossedPairs(before, coins, cuts, k) + before[2 * k..]
    ensures current[2 * k] == before[2 * k] && current[2 * k + 1] == before[2 * k + 1]
    ensures var pair := PairAt(before, coins, cuts, k);
      current[2 * k := pair.0][2 * k + 1 := pair.1] == CrossedPairs(before, coins, cuts, k + 1) + before[2 * k + 2..]
  {
    var pair := PairAt(before, coins, cuts, k);
    var prefix := CrossedPairs(before, coins, cuts, k);
    assert before[2 * k..] == [before[2 * k], before[2 * k + 1]] + before[2 * k + 2..];
    assert current == prefix + [before[2 * k], before[2 * k + 1]] + before[2 * k + 2..];
    assert current[2 * k := pair.0][2 * k + 1 := pair.1] == prefix + [pair.0, pair.1] + before[2 * k + 2..];
  }

  /** The body of the pair loop: `offspring[2k]` and `offspring[2k + 1]` are
      crossed in place when the coin is below CXPB. */
  method MateInPlace<F>(offspring: array<Individual<F>>, coin: real, cut: Cut, k: nat)
    requires 2 * k + 1 < offspring.Length
    modifies offspring
    ensures var pair := MatePair(old(offspring[2 * k]), old(offspring[2 * k + 1]), coin, cut);
      offspring[..] == old(offspring[..])[2 * k := pair.0][2 * k + 1 := pair.1]
  {
    if coin < CXPB {
      var children := TwoPoint(offspring[2 * k].genes, offspring[2 * k + 1].genes, cut);
      // the crossed children lose their fitness
      offspring[2 * k] := Individual(children.0, None);
      offspring[2 * k + 1] := Individual(children.1, None);
    }
  }

  /** The pair loop over `zip(offspring[::2], offspring[1::2])`, crossing in place. */
  method CrossAdjacent<F>(offspring: array<Individual<F>>, coins: seq<real>, cuts: seq<Cut>)
    modifies offspring
    ensures offspring[..] == Crossover(old(offspring[..]), coins, cuts)
  {
    ghost var before := offspring[..];
    var k := 0;
    while 2 * k + 1 < offspring.Length
      invariant 0 <= 2 * k <= offspring.Length
      invariant offspring[..] == CrossedPairs(before, coins, cuts, k) + before[2 * k..]
    {
      CrossedPairsStep(before, coins, cuts, k, offspring[..]);
      MateInPlace(offspring, CoinAt(coins, k), CutAt(cuts, k), k);
      k := k + 1;
    }
    CrossedPairsThenRest(before, coins, cuts, k);
  }

  /** The loop `for mutant in offspring`, mutating in place. */
  method MutateEach<F>(offspring: array<Individual<F>>, coins: seq<real>, changes: seq<seq<Option<int>>>)
    modifies offspring
    ensures offspring[..] == Mutation(old(offspring[..]), coins, changes)
  {
    ghost var before := offspring[..];
    for j := 0 to offspring.Length
      invariant forall i :: 0 <= i < j ==> offspring[i] == MutatedAt(before, coins, changes, i)
      invariant forall i :: j <= i < offspring.Length ==> offspring[i] == before[i]
    {
      if CoinAt(coins, j) < MUTPB {
        offspring[j] := Individual(Mutate(offspring[j].genes, ChangeAt(changes, j)), None);
      }
    }
  }

  /** Any fitness left on an individual of the evolved population is the
      evaluation of its current genes, and was computed for the initial
      population. */
  lemma EvolvedFitness<F>(gen: nat -> seq<int>, eval: seq<int> -> F, draws: seq<GenerationDraws>, g: nat, i: nat)
    requires i < POPULATION_SIZE
    ensures var r := Evolve(InitialPopulation(gen, eval), draws, g);
      r[i].fitness.Some? ==>
        r[i].fitness.value == eval(r[i].genes) && r[i].fitness.value in Fitnesses(InitialPopulation(gen, eval))
  {
    var initial := InitialPopulation(gen, eval);
    assert FitnessCurrent(initial, eval);
    EvolveKeepsFitnessCurrent(initial, draws, g, eval);
    EvolveComputesNoFitness(initial, draws, g);
    var r := Evolve(initial, draws, g);
    assert IsCurrent(r[i], eval);
    assert r[i] in r;
  }

  /** `fitnesses = map(toolbox.evaluate, pop)` and the loop assigning each
      individual its fitness. */
  method EvaluateAll<F>(pop: array<Individual<F>>, eval: seq<int> -> F)
    modifies pop
    ensures forall i :: 0 <= i < pop.Length ==> pop[i] == Individual(old(pop[i]).genes, Some(eval(old(pop[i]).genes)))
  {
    var fitnesses := seq(pop.Length, i requires 0 <= i < pop.Length reads pop => eval(pop[i].genes));
    for i := 0 to pop.Length
      invariant forall j :: 0 <= j < i ==> pop[j] == Individual(old(pop[j]).genes, Some(eval(old(pop[j]).genes)))
      invariant forall j :: i <= j < pop.Length ==> pop[j] == old(pop[j])
    {
      pop[i] := pop[i].(fitness := Some(fitnesses[i]));
    }
  }

  /** One pass of the generation loop: the offspring are selected and cloned,
      crossed, mutated, and then replace the whole population. */
  method RunGeneration<F>(pop: array<Individual<F>>, d: GenerationDraws)
    modifies pop
    ensures pop[..] == Generation(old(pop[..]), d)
  {
    var offspring := SelectAndClone(pop, d.picks);
    CrossAdjacent(offspring, d.mateCoins, d.cuts);
    MutateEach(offspring, d.mutateCoins, d.changes);
    // pop now holds the offspring
    forall i | 0 <= i < pop.Length {
      pop[i] := offspring[i];
    }
  }

  /** One more generation on the population after `g` generations gives the
      population after `g + 1`. */
  lemma EvolveNext<F>(pop: seq<Individual<F>>, draws: seq<GenerationDraws>, g: nat, prev: seq<Individual<F>>, next: seq<Individual<F>>)
    requires prev == Evolve(pop, draws, g)
    requires next == Generation(prev, DrawsAt(draws, g))
    ensures next == Evolve(pop, draws, g + 1)
  {
  }

  /** The whole search: build and evaluate the population, run
      NUMBER_OF_ITERATIONS generations, and return a member of the final
      population (the one `tools.selBest` would choose is given by `bestPick`). */
  method Optimize<F>(gen: nat -> seq<int>, eval: seq<int> -> F, draws: seq<GenerationDraws>, bestPick: nat)
    returns (best: Individual<F>, bestFitness: Option<F>)
    ensures best == Evolve(InitialPopulation(gen, eval), draws, NUMBER_OF_ITERATIONS)[bestPick % POPULATION_SIZE]
    ensures bestFitness == best.fitness
    ensures bestFitness.Some? ==> bestFitness.value == eval(best.genes)
    ensures bestFitness.Some? ==> bestFitness.value in Fitnesses(InitialPopulation(gen, eval))
  {
    var pop := new Individual<F>[POPULATION_SIZE](i => Individual(gen(i), None));
    // every initial individual gets its fitness
    EvaluateAll(pop, eval);
    ghost var initial := pop[..];
    assert initial == InitialPopulation(gen, eval);
    for g := 0 to NUMBER_OF_ITERATIONS
      invariant pop[..] == Evolve(initial, draws, g)
    {
      ghost var prev := pop[..];
      RunGeneration(pop, DrawsAt(draws, g));
      EvolveNext(initial, draws, g, prev, pop[..]);
    }
    best := pop[bestPick % pop.Length];
    bestFitness := best.fitness;
    EvolvedFitness(gen, eval, draws, NUMBER_OF_ITERATIONS, bestPick % pop.Length);
  }
}
