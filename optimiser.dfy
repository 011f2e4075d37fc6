/**
 * The local-search weight optimiser of `optimizeNetworkWeights`, as functions
 * on values: one iteration scans every edge of the fixed path and every other
 * integer weight in [1, WMax], scoring each trial by the network cost (read
 * from a cache keyed by edge id and weight when the pair was tried before),
 * and then applies the single best trial, the first one on ties.
 */
module Optimiser {
  import opened Util
  import opened Network

  /** Largest weight the optimiser assigns. */
  const WMax: int := 20
  /** Number of local-search iterations. */
  const Iterations: nat := 5000

  predicate InRange(path: seq<nat>, n: nat)
  {
    forall k :: 0 <= k < |path| ==> path[k] < n
  }

  /** Weights as the optimiser seeds and keeps them: integral and within [1, WMax]. */
  predicate Seeded(edges: seq<Edge>)
  {
    forall i :: 0 <= i < |edges| ==> 1 <= IntValue(edges[i].weight) <= WMax && edges[i].weight == IntValue(edges[i].weight) as real
  }

  /** Every edge's weight replaced by its seed. */
  function SeedWeights(edges: seq<Edge>, seeds: seq<int>): (r: seq<Edge>)
    requires |seeds| == |edges|
    ensures |r| == |edges|
  {
    seq(|edges|, i requires 0 <= i < |edges| => edges[i].(weight := seeds[i] as real))
  }

  /** Seeds drawn from [1, WMax] give a seeded network whose ids, endpoints and loads are those of before. */
  lemma SeedWeightsSeeded(edges: seq<Edge>, seeds: seq<int>)
    requires |seeds| == |edges|
    requires forall i :: 0 <= i < |seeds| ==> 1 <= seeds[i] <= WMax
    ensures Seeded(SeedWeights(edges, seeds))
    ensures forall i :: 0 <= i < |edges| ==> SeedWeights(edges, seeds)[i] == edges[i].(weight := seeds[i] as real)
  {
  }

  /** One edge's weight set to the integer `w`. */
  function SetWeight(edges: seq<Edge>, i: nat, w: int): (r: seq<Edge>)
    requires i < |edges|
    ensures |r| == |edges|
  {
    edges[i := edges[i].(weight := w as real)]
  }

  /** The best trial so far: its cost, the edge (an index) and the weight tried on it. */
  datatype Choice = Choice(cost: real, edge: nat, weight: int)

  /** Cache of evaluated (edge id, weight) pairs and the best trial of the iteration. */
  datatype Scan = Scan(cache: map<(string, int), Cost>, best: Option<Choice>)

  /**
   * `cost < bestCost`, where no best yet stands for the `Double.MAX_VALUE`
   * start: an infinite or NaN cost never compares below it.
   */
  predicate Improves(cost: Cost, best: Option<Choice>)
  {
    cost.Finite? && (best.None? || cost.value < best.value.cost)
  }

  function Consider(best: Option<Choice>, cost: Cost, i: nat, w: int): Option<Choice>
  {
    if Improves(cost, best) then Some(Choice(cost.value, i, w)) else best
  }

  /**
   * The cost of each trial: the network cost with weight `w` on edge `i` and
   * every other weight as in `edges`. Scans receive it as a function value.
   */
  function Trials(edges: seq<Edge>, capacities: map<string, real>): (nat, int) -> Cost
  {
    (i: nat, w: int) => if i < |edges| then NetworkCost(SetWeight(edges, i, w), capacities) else NonFinite
  }

  /**
   * Try weight `w` on edge `i` (id `id`): reuse the cached cost if the pair
   * was tried before, otherwise evaluate the trial and cache its cost.
   */
  function TryCandidate(costs: (nat, int) -> Cost, s: Scan, i: nat, id: string, w: int): Scan
  {
    var key := (id, w);
    if key in s.cache then Scan(s.cache, Consider(s.best, s.cache[key], i, w))
    else
      var cost := costs(i, w);
      Scan(s.cache[key := cost], Consider(s.best, cost, i, w))
  }

  /** The scan of edge `i` (id `id`, current weight `cur`) after the candidates 1 .. n, skipping `cur`. */
  function ScanEdge(costs: (nat, int) -> Cost, s: Scan, i: nat, id: string, cur: int, n: nat): Scan
    decreases n
  {
    if n == 0 then s
    else
      var before := ScanEdge(costs, s, i, id, cur, n - 1);
      if n == cur then before else TryCandidate(costs, before, i, id, n)
  }

  /** The scan after the first `k` edges of the path, each with every candidate weight 1 .. n. */
  function ScanPath(edges: seq<Edge>, costs: (nat, int) -> Cost, s: Scan, path: seq<nat>, k: nat, n: nat): Scan
    requires k <= |path| && InRange(path, |edges|)
  {
    if k == 0 then s
    else
      var e := edges[path[k - 1]];
      ScanEdge(costs, ScanPath(edges, costs, s, path, k - 1, n), path[k - 1], e.id, IntValue(e.weight), n)
  }

  /** Scanning one more path edge is an edge scan of that edge after the shorter path scan. */
  lemma ScanPathStep(edges: seq<Edge>, costs: (nat, int) -> Cost, s: Scan, path: seq<nat>, k: nat, n: nat)
    requires k < |path| && InRange(path, |edges|)
    ensures ScanPath(edges, costs, s, path, k + 1, n) ==
      ScanEdge(costs, ScanPath(edges, costs, s, path, k, n), path[k], edges[path[k]].id, IntValue(edges[path[k]].weight), n)
  {
  }

  /** Pair (edge, weight) is one the scan of `path[..k]` with candidates 1 .. n tries. */
  predicate Tried(edges: seq<Edge>, path: seq<nat>, k: nat, n: nat, i: nat, w: int)
    requires k <= |path| && InRange(path, |edges|)
  {
    i in path[..k] && 1 <= w <= n && i < |edges| && w != IntValue(edges[i].weight)
  }

  /** The weights and cache after one iteration. */
  datatype OptState = OptState(edges: seq<Edge>, cache: map<(string, int), Cost>)

  /** One iteration: scan the whole path, then apply the best trial, if there is one. */
  function Iteration(edges: seq<Edge>, capacities: map<string, real>, path: seq<nat>, cache: map<(string, int), Cost>): (r: OptState)
    requires InRange(path, |edges|)
    ensures |r.edges| == |edges|
  {
    var s := ScanPath(edges, Trials(edges, capacities), Scan(cache, None), path, |path|, WMax);
    ScanPathBest(edges, Trials(edges, capacities), Scan(cache, None), path, |path|, WMax);
    match s.best
    case None => OptState(edges, s.cache)
    case Some(c) => OptState(SetWeight(edges, c.edge, c.weight), s.cache)
  }

  /** `n` iterations from `edges` and `cache`. */
  function Run(edges: seq<Edge>, capacities: map<string, real>, path: seq<nat>, cache: map<(string, int), Cost>, n: nat): (r: OptState)
    requires InRange(path, |edges|)
    ensures |r.edges| == |edges|
    decreases n
  {
    if n == 0 then OptState(edges, cache)
    else
      var p := Run(edges, capacities, path, cache, n - 1);
      Iteration(p.edges, capacities, path, p.cache)
  }

  // ---------------------------------------------------------------------------
  // What any scan guarantees, whatever the costs are.

  /** The cache keys the candidates 1 .. n of an edge other than `cur` use. */
  function CandidateKeys(id: string, cur: int, n: nat): set<(string, int)>
  {
    if n == 0 then {} else CandidateKeys(id, cur, n - 1) + (if n == cur then {} else {(id, n)})
  }

  lemma {:induction false} CandidateKeysMembers(id: string, cur: int, n: nat)
    ensures forall key :: key in CandidateKeys(id, cur, n) <==> key.0 == id && 1 <= key.1 <= n && key.1 != cur
  {
    if n > 0 {
      CandidateKeysMembers(id, cur, n - 1);
    }
  }

  /** The cache keys the scan of the first `k` path edges with candidates 1 .. n uses. */
  function TriedKeys(edges: seq<Edge>, path: seq<nat>, k: nat, n: nat): set<(string, int)>
    requires k <= |path| && InRange(path, |edges|)
  {
    if k == 0 then {}
    else
      var e := edges[path[k - 1]];
      TriedKeys(edges, path, k - 1, n) + CandidateKeys(e.id, IntValue(e.weight), n)
  }

  lemma TriedKeysStep(edges: seq<Edge>, path: seq<nat>, k: nat, n: nat)
    requires k < |path| && InRange(path, |edges|)
    ensures TriedKeys(edges, path, k + 1, n) ==
      TriedKeys(edges, path, k, n) + CandidateKeys(edges[path[k]].id, IntValue(edges[path[k]].weight), n)
  {
  }

  /** A key is tried exactly when it pairs a path edge's id with an in-range weight other than that edge's own. */
  lemma {:induction false} TriedKeysMembers(edges: seq<Edge>, path: seq<nat>, k: nat, n: nat)
    requires k <= |path| && InRange(path, |edges|)
    ensures forall key :: key in TriedKeys(edges, path, k, n) <==>
      exists j :: 0 <= j < k && key.0 == edges[path[j]].id && 1 <= key.1 <= n && key.1 != IntValue(edges[path[j]].weight)
  {
    if k > 0 {
      TriedKeysMembers(edges, path, k - 1, n);
      var e := edges[path[k - 1]];
      CandidateKeysMembers(e.id, IntValue(e.weight), n);
      forall key | key in TriedKeys(edges, path, k, n)
        ensures exists j :: 0 <= j < k && key.0 == edges[path[j]].id && 1 <= key.1 <= n && key.1 != IntValue(edges[path[j]].weight)
      {
        if key !in TriedKeys(edges, path, k - 1, n) {
          assert key.0 == edges[path[k - 1]].id && 1 <= key.1 <= n && key.1 != IntValue(edges[path[k - 1]].weight);
        }
      }
    }
  }

  /** `after` keeps every entry of `before` and has exactly the keys of `before` and `added`. */
  ghost predicate CacheGrows(before: map<(string, int), Cost>, after: map<(string, int), Cost>, added: set<(string, int)>)
  {
    && (forall key :: key in after <==> key in before || key in added)
    && (forall key :: key in before ==> after[key] == before[key])
  }

  lemma CacheGrowsTrans(a: map<(string, int), Cost>, b: map<(string, int), Cost>, c: map<(string, int), Cost>,
                        x: set<(string, int)>, y: set<(string, int)>)
    requires CacheGrows(a, b, x) && CacheGrows(b, c, y)
    ensures CacheGrows(a, c, x + y)
  {
  }

  /** Scanning one edge keeps every cached entry and adds exactly the keys of its candidates. */
  lemma {:induction false} ScanEdgeCache(costs: (nat, int) -> Cost, s: Scan, i: nat, id: string, cur: int, n: nat)
    ensures CacheGrows(s.cache, ScanEdge(costs, s, i, id, cur, n).cache, CandidateKeys(id, cur, n))
    decreases n
  {
    if n > 0 {
      ScanEdgeCache(costs, s, i, id, cur, n - 1);
    }
  }

  /**
   * `after` is `before`, or a trial on edge `i` of a weight in 1 .. n other
   * than `cur`; a replaced best is strictly cheaper, so ties never overwrite.
   */
  predicate EdgeBest(i: nat, cur: int, n: nat, before: Option<Choice>, after: Option<Choice>)
  {
    && (after == before || (after.Some? && after.value.edge == i && 1 <= after.value.weight <= n && after.value.weight != cur))
    && (before.Some? ==> after.Some? && after.value.cost <= before.value.cost)
    && (before.Some? && after != before ==> after.value.cost < before.value.cost)
  }

  /** Scanning one edge keeps the best trial or replaces it by a strictly cheaper one on that edge. */
  lemma {:induction false} ScanEdgeBest(costs: (nat, int) -> Cost, s: Scan, i: nat, id: string, cur: int, n: nat)
    ensures EdgeBest(i, cur, n, s.best, ScanEdge(costs, s, i, id, cur, n).best)
    decreases n
  {
    if n > 0 {
      ScanEdgeBest(costs, s, i, id, cur, n - 1);
    }
  }

  /** `best` is `start`, or a trial the scan of `path[..k]` with candidates 1 .. n makes. */
  predicate BestFrom(edges: seq<Edge>, path: seq<nat>, k: nat, n: nat, start: Option<Choice>, best: Option<Choice>)
    requires k <= |path| && InRange(path, |edges|)
  {
    best == start || (best.Some? && Tried(edges, path, k, n, best.value.edge, best.value.weight))
  }

  lemma BestFromStep(edges: seq<Edge>, path: seq<nat>, k: nat, n: nat, start: Option<Choice>, before: Option<Choice>, after: Option<Choice>)
    requires 0 < k <= |path| && InRange(path, |edges|)
    requires BestFrom(edges, path, k - 1, n, start, before)
    requires EdgeBest(path[k - 1], IntValue(edges[path[k - 1]].weight), n, before, after)
    ensures BestFrom(edges, path, k, n, start, after)
  {
    assert path[..k] == path[..k - 1] + [path[k - 1]];
  }

  /** The best trial of a path scan, if any, sets a path edge to an in-range weight other than its own. */
  lemma {:induction false} ScanPathBest(edges: seq<Edge>, costs: (nat, int) -> Cost, s: Scan, path: seq<nat>, k: nat, n: nat)
    requires k <= |path| && InRange(path, |edges|)
    ensures BestFrom(edges, path, k, n, s.best, ScanPath(edges, costs, s, path, k, n).best)
  {
    if k > 0 {
      var before := ScanPath(edges, costs, s, path, k - 1, n);
      var e := edges[path[k - 1]];
      ScanPathBest(edges, costs, s, path, k - 1, n);
      ScanEdgeBest(costs, before, path[k - 1], e.id, IntValue(e.weight), n);
      BestFromStep(edges, path, k, n, s.best, before.best, ScanEdge(costs, before, path[k - 1], e.id, IntValue(e.weight), n).best);
    }
  }

  /** If the scan of `path[..k-1]` grows the cache by its tried keys, so does the scan of `path[..k]`. */
  lemma ScanPathCacheStep(edges: seq<Edge>, costs: (nat, int) -> Cost, s: Scan, path: seq<nat>, k: nat, n: nat)
    requires 0 < k <= |path| && InRange(path, |edges|)
    requires CacheGrows(s.cache, ScanPath(edges, costs, s, path, k - 1, n).cache, TriedKeys(edges, path, k - 1, n))
    ensures CacheGrows(s.cache, ScanPath(edges, costs, s, path, k, n).cache, TriedKeys(edges, path, k, n))
  {
    var before := ScanPath(edges, costs, s, path, k - 1, n);
    var e := edges[path[k - 1]];
    var after := ScanEdge(costs, before, path[k - 1], e.id, IntValue(e.weight), n);
    ScanEdgeCache(costs, before, path[k - 1], e.id, IntValue(e.weight), n);
    CacheGrowsTrans(s.cache, before.cache, after.cache, TriedKeys(edges, path, k - 1, n), CandidateKeys(e.id, IntValue(e.weight), n));
  }

  /**
   * The cache keeps every entry across a path scan and gains exactly the
   * keys the scan tries: a pair is looked up before it is evaluated, so no
   * pair is ever evaluated twice.
   */
  lemma {:induction false} ScanPathCache(edges: seq<Edge>, costs: (nat, int) -> Cost, s: Scan, path: seq<nat>, k: nat, n: nat)
    requires k <= |path| && InRange(path, |edges|)
    ensures CacheGrows(s.cache, ScanPath(edges, costs, s, path, k, n).cache, TriedKeys(edges, path, k, n))
  {
    if k > 0 {
      ScanPathCache(edges, costs, s, path, k - 1, n);
      ScanPathCacheStep(edges, costs, s, path, k, n);
    }
  }

  /**
   * One iteration changes at most one weight: the result is the old network,
   * or it with a single path edge set to an integer in [1, WMax] other than its
   * weight before; the cache only gains entries.
   */
  lemma IterationChangesAtMostOne(edges: seq<Edge>, capacities: map<string, real>, path: seq<nat>, cache: map<(string, int), Cost>)
    requires InRange(path, |edges|)
    ensures var r := Iteration(edges, capacities, path, cache);
      && (r.edges == edges
          || exists i, w :: i in path && 1 <= w <= WMax && w != IntValue(edges[i].weight) && r.edges == SetWeight(edges, i, w))
      && CacheGrows(cache, r.cache, TriedKeys(edges, path, |path|, WMax))
  {
    ScanPathBest(edges, Trials(edges, capacities), Scan(cache, None), path, |path|, WMax);
    ScanPathCache(edges, Trials(edges, capacities), Scan(cache, None), path, |path|, WMax);
    assert path[..|path|] == path;
  }

  /** An iteration rewrites weights only: every id and every load stays as it was. */
  lemma IterationKeepsIdsAndLoads(edges: seq<Edge>, capacities: map<string, real>, path: seq<nat>, cache: map<(string, int), Cost>)
    requires InRange(path, |edges|)
    ensures SameIdsAndLoads(Iteration(edges, capacities, path, cache).edges, edges)
  {
    IterationChangesAtMostOne(edges, capacities, path, cache);
  }

  /** Run for n > 0 is one iteration after the run for n - 1. */
  lemma RunStep(edges: seq<Edge>, capacities: map<string, real>, path: seq<nat>, n: nat)
    requires InRange(path, |edges|) && n > 0
    ensures var p := Run(edges, capacities, path, map[], n - 1);
      Run(edges, capacities, path, map[], n) == Iteration(p.edges, capacities, path, p.cache)
  {
  }

  /** A whole run rewrites weights only. */
  lemma {:induction false} RunKeepsIdsAndLoads(edges: seq<Edge>, capacities: map<string, real>, path: seq<nat>, n: nat)
    requires InRange(path, |edges|)
    ensures SameIdsAndLoads(Run(edges, capacities, path, map[], n).edges, edges)
    decreases n
  {
    if n > 0 {
      RunKeepsIdsAndLoads(edges, capacities, path, n - 1);
      var p := Run(edges, capacities, path, map[], n - 1);
      RunStep(edges, capacities, path, n);
      IterationKeepsIdsAndLoads(p.edges, capacities, path, p.cache);
      SameIdsAndLoadsTrans(Run(edges, capacities, path, map[], n).edges, p.edges, edges);
    }
  }

  // ---------------------------------------------------------------------------
  // The costs this program actually compares: all equal.

  /** Every cached cost is `c`. */
  predicate Uniform(cache: map<(string, int), Cost>, c: Cost)
  {
    forall key :: key in cache ==> cache[key] == c
  }

  /** The first weight in ascending order that differs from `current`. */
  function FirstCandidate(current: int): int
  {
    if current == 1 then 2 else 1
  }

  /** Every trial on an edge of the network costs `c`. */
  ghost predicate ConstantTrials(costs: (nat, int) -> Cost, n: nat, c: Cost)
  {
    forall i: nat, w: int :: i < n ==> costs(i, w) == c
  }

  /**
   * The network cost ignores weights, so every trial costs what the network
   * costs as it is.
   */
  lemma TrialsConstant(edges: seq<Edge>, capacities: map<string, real>)
    ensures ConstantTrials(Trials(edges, capacities), |edges|, NetworkCost(edges, capacities))
  {
    forall i: nat, w: int | i < |edges|
      ensures Trials(edges, capacities)(i, w) == NetworkCost(edges, capacities)
    {
      NetworkCostIgnoresWeight(edges, i, w as real, capacities);
    }
  }

  /**
   * When every trial costs the same `c`, the first trial of the edge becomes
   * the best one (if there is no best yet and `c` is finite) and nothing later
   * is strictly better.
   */
  lemma {:induction false} ScanEdgeUniform(costs: (nat, int) -> Cost, c: Cost, m: nat, s: Scan, i: nat, id: string, cur: int, n: nat)
    requires i < m && ConstantTrials(costs, m, c) && Uniform(s.cache, c)
    requires s.best.Some? ==> c == Finite(s.best.value.cost)
    ensures var r := ScanEdge(costs, s, i, id, cur, n);
      && Uniform(r.cache, c)
      && r.best == if s.best.None? && c.Finite? && FirstCandidate(cur) <= n
                   then Some(Choice(c.value, i, FirstCandidate(cur)))
                   else s.best
    decreases n
  {
    if n > 0 {
      ScanEdgeUniform(costs, c, m, s, i, id, cur, n - 1);
    }
  }

  /** A path scan's best is the first edge of the path set to its first candidate weight. */
  lemma {:induction false} ScanPathUniform(edges: seq<Edge>, costs: (nat, int) -> Cost, c: Cost, cache: map<(string, int), Cost>, path: seq<nat>, k: nat, n: nat)
    requires k <= |path| && InRange(path, |edges|) && n >= 2
    requires ConstantTrials(costs, |edges|, c) && Uniform(cache, c)
    ensures var r := ScanPath(edges, costs, Scan(cache, None), path, k, n);
      && Uniform(r.cache, c)
      && r.best == if k > 0 && c.Finite?
                   then Some(Choice(c.value, path[0], FirstCandidate(IntValue(edges[path[0]].weight))))
                   else None
  {
    if k > 0 {
      var e := edges[path[k - 1]];
      ScanPathUniform(edges, costs, c, cache, path, k - 1, n);
      ScanEdgeUniform(costs, c, |edges|, ScanPath(edges, costs, Scan(cache, None), path, k - 1, n), path[k - 1], e.id, IntValue(e.weight), n);
    }
  }

  /** An iteration sets the path's first edge to its first candidate weight and changes nothing else. */
  lemma IterationUniform(edges: seq<Edge>, capacities: map<string, real>, path: seq<nat>, cache: map<(string, int), Cost>)
    requires InRange(path, |edges|)
    requires Uniform(cache, NetworkCost(edges, capacities))
    ensures var r := Iteration(edges, capacities, path, cache);
      && Uniform(r.cache, NetworkCost(edges, capacities))
      && r.edges == if |path| > 0 && NetworkCost(edges, capacities).Finite?
                    then SetWeight(edges, path[0], FirstCandidate(IntValue(edges[path[0]].weight)))
                    else edges
  {
    TrialsConstant(edges, capacities);
    ScanPathUniform(edges, Trials(edges, capacities), NetworkCost(edges, capacities), cache, path, |path|, WMax);
  }

  /** The weight the first path edge has after `n` iterations, starting from `w`. */
  function Toggled(w: int, n: nat): int
  {
    if n == 0 then w else FirstCandidate(Toggled(w, n - 1))
  }

  /** After the first iteration the first path edge's weight only alternates between 1 and 2. */
  lemma {:induction false} ToggledAlternates(w: int, n: nat)
    requires n >= 1
    ensures Toggled(w, n) == 1 || Toggled(w, n) == 2
    ensures Toggled(w, n + 1) != Toggled(w, n) && Toggled(w, n + 2) == Toggled(w, n)
  {
    if n > 1 {
      ToggledAlternates(w, n - 1);
    }
  }

  /**
   * The whole run in closed form: with a non-empty path and a finite network
   * cost, `n` iterations leave every weight as seeded except the first path
   * edge's, which is `Toggled(seed, n)`; otherwise nothing changes. Every cache
   * entry holds the current network cost, so reusing it is the same as
   * recomputing it.
   */
  lemma {:induction false} RunClosedForm(edges: seq<Edge>, capacities: map<string, real>, path: seq<nat>, n: nat)
    requires InRange(path, |edges|) && Seeded(edges)
    ensures var r := Run(edges, capacities, path, map[], n);
      && NetworkCost(r.edges, capacities) == NetworkCost(edges, capacities)
      && Uniform(r.cache, NetworkCost(r.edges, capacities))
      && r.edges == if |path| > 0 && NetworkCost(edges, capacities).Finite?
                    then SetWeight(edges, path[0], Toggled(IntValue(edges[path[0]].weight), n))
                    else edges
    decreases n
  {
    var c := NetworkCost(edges, capacities);
    if n > 0 {
      RunClosedForm(edges, capacities, path, n - 1);
      var p := Run(edges, capacities, path, map[], n - 1);
      IterationUniform(p.edges, capacities, path, p.cache);
      if |path| > 0 && c.Finite? {
        var i := path[0];
        var w := Toggled(IntValue(edges[i].weight), n - 1);
        assert IntValue(p.edges[i].weight) == w;
        assert SetWeight(p.edges, i, FirstCandidate(w)) == SetWeight(edges, i, Toggled(IntValue(edges[i].weight), n));
        NetworkCostIgnoresWeight(edges, i, Toggled(IntValue(edges[i].weight), n) as real, capacities);
      }
    } else if |path| > 0 {
      assert SetWeight(edges, path[0], IntValue(edges[path[0]].weight)) == edges;
    }
  }

  /** A run from a seeded network keeps every weight an integer in [1, WMax]. */
  lemma RunStaysSeeded(edges: seq<Edge>, capacities: map<string, real>, path: seq<nat>, n: nat)
    requires InRange(path, |edges|) && Seeded(edges)
    ensures Seeded(Run(edges, capacities, path, map[], n).edges)
  {
    RunClosedForm(edges, capacities, path, n);
    if |path| > 0 && n > 0 {
      ToggledAlternates(IntValue(edges[path[0]].weight), n);
    }
  }
}
