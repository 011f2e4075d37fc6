/**
 * The root visualizer as an object: the graph's edges (with their mutable
 * `weight` and `load` attributes) and the capacity table, and the operations
 * that change them step by step — resetting loads, evaluating the network
 * cost, simulating a capacity-bounded flow along a path, and the weight
 * optimiser's local search. Each method is proved against the functions of
 * the Network, Flow and Optimiser modules.
 */
module Engine {
  import opened Util
  import opened Congestion
  import opened Network
  import opened Flow
  import opened Optimiser

  /**
   * What a flow simulation ends with: no path to send along, every round
   * sent (the amounts in order), or a first round that sent nothing — the
   * bottleneck is not positive, and from there on the source loops forever
   * (see `Flow.StalledFlowNeverEnds`).
   */
  datatype FlowOutcome = NoPath | Delivered(sent: seq<real>) | Stalled(first: real)

  class NetworkVisualizer {
    /** The graph's edges, in the graph's iteration order. */
    var edges: seq<Edge>
    /** `linkCapacities`: capacity per edge id. */
    var capacities: map<string, real>

    /** Loads and capacities are not negative, and edge ids are unique. */
    ghost predicate Valid()
      reads this
    {
      && UniqueIds(edges)
      && (forall i :: 0 <= i < |edges| ==> edges[i].load >= 0.0)
      && (forall id :: id in capacities ==> capacities[id] >= 0.0)
    }

    /** The visualizer once its input files are read: the loaded edges, every load 0.0, and the capacity table. */
    constructor (loaded: seq<Edge>, table: map<string, real>)
      requires UniqueIds(loaded)
      requires forall i :: 0 <= i < |loaded| ==> loaded[i].load == 0.0
      requires forall id :: id in table ==> table[id] >= 0.0
      ensures Valid()
      ensures edges == loaded && capacities == table
    {
      edges := loaded;
      capacities := table;
    }

    /** Colour of edge `i`'s label: its load against its capacity, a missing capacity read as 0.0. */
    function EdgeColour(i: nat): (c: Colour)
      requires i < |edges|
      reads this
      ensures c == Red <==> CapacityOr(capacities, edges[i].id, 0.0) > 0.0
                            && 4.0 * edges[i].load > 3.0 * CapacityOr(capacities, edges[i].id, 0.0)
      ensures c == Green <==> CapacityOr(capacities, edges[i].id, 0.0) <= 0.0
                              || 2.0 * edges[i].load <= CapacityOr(capacities, edges[i].id, 0.0)
    {
      var capacity := CapacityOr(capacities, edges[i].id, 0.0);
      LabelColourThresholds(edges[i].load, capacity);
      LabelColour(LoadPercentage(edges[i].load, capacity))
    }

    /** The calculate button's reset: every load set to 0.0, nothing else changed. */
    method ResetLoads()
      requires Valid()
      modifies this
      ensures Valid() && capacities == old(capacities)
      ensures |edges| == |old(edges)|
      ensures forall i :: 0 <= i < |edges| ==> edges[i] == old(edges[i]).(load := 0.0)
    {
      var i := 0;
      while i < |edges|
        invariant 0 <= i <= |edges| == |old(edges)| && capacities == old(capacities)
        invariant forall j :: 0 <= j < |edges| ==> edges[j] == if j < i then old(edges[j]).(load := 0.0) else old(edges[j])
      {
        edges := edges[i := edges[i].(load := 0.0)];
        i := i + 1;
      }
    }

    /** `evaluateNetworkCost`: the per-edge costs added up in edge order. */
    method EvaluateNetworkCost() returns (total: Cost)
      ensures total == NetworkCost(edges, capacities)
    {
      total := Finite(0.0);
      var i := 0;
      while i < |edges|
        invariant 0 <= i <= |edges|
        invariant total == NetworkCost(edges[..i], capacities)
      {
        var e := edges[i];
        var capacity := CapacityOr(capacities, e.id, 1.0);
        var cost: Cost;
        if capacity == 0.0 {
          cost := NonFinite;
        } else {
          var utilization := e.load / capacity;
          cost := Finite(EdgeCost(utilization));
        }
        total := Plus(total, cost);
        assert edges[..i + 1][..i] == edges[..i];
        i := i + 1;
      }
      assert edges[..|edges|] == edges;
    }

    /** The minimum-capacity loop over a path: its bottleneck, `None` for the `Double.MAX_VALUE` of an empty path. */
    method PathBottleneck(path: seq<nat>) returns (minCapacity: Option<real>)
      requires InRange(path, |edges|)
      ensures minCapacity == Bottleneck(edges, capacities, path)
    {
      minCapacity := None;
      var k := 0;
      while k < |path|
        invariant 0 <= k <= |path|
        invariant minCapacity == Bottleneck(edges, capacities, path[..k])
      {
        var capacity := CapacityOr(capacities, edges[path[k]].id, 0.0);
        if minCapacity.None? || capacity < minCapacity.value {
          minCapacity := Some(capacity);
        }
        assert path[..k + 1][..k] == path[..k];
        k := k + 1;
      }
      assert path[..|path|] == path;
    }

    /** Overwrite the load of every edge on the path with `bps`. */
    method WriteLoads(path: seq<nat>, bps: real)
      requires InRange(path, |edges|)
      modifies this
      ensures edges == SetLoads(old(edges), path, bps) && capacities == old(capacities)
    {
      ghost var before := edges;
      var k := 0;
      while k < |path|
        invariant 0 <= k <= |path| && |edges| == |before| && capacities == old(capacities)
        invariant forall j :: 0 <= j < |edges| ==> edges[j] == if j in path[..k] then before[j].(load := bps) else before[j]
      {
        assert path[..k + 1] == path[..k] + [path[k]];
        edges := edges[path[k] := edges[path[k]].(load := bps)];
        k := k + 1;
      }
      assert path[..|path|] == path;
    }

    /**
     * One round of the flow loop: find the path's bottleneck, send the smaller
     * of it and `remaining`, and write that amount as every path edge's load.
     * The ghost `initial` and `sent` are the edges before the first round and
     * the amounts of the rounds so far.
     */
    method SendRound(path: seq<nat>, remaining: real, ghost initial: seq<Edge>, ghost sent: seq<real>) returns (bps: real)
      requires InRange(path, |edges|) && remaining > 0.0
      requires SameIds(edges, initial) && LoadsNonNegative(edges) && edges == LoadsAfter(initial, path, sent)
      requires forall id :: id in capacities ==> capacities[id] >= 0.0
      modifies this
      ensures bps == RoundAmount(remaining, Bottleneck(initial, capacities, path))
      ensures edges == LoadsAfter(initial, path, sent + [bps]) && capacities == old(capacities)
      ensures SameIds(edges, initial) && LoadsNonNegative(edges)
    {
      BottleneckReadsIds(edges, initial, capacities, path);
      BottleneckNonNegative(edges, capacities, path);
      ghost var before := edges;
      var minCapacity := PathBottleneck(path);
      bps := RoundAmount(remaining, minCapacity);
      WriteLoads(path, bps);
      SetLoadsKeepsIds(before, path, bps);
      LoadsAfterRound(initial, path, sent, bps);
    }

    /**
     * The flow loop on a fixed path: while data remains, send the smaller of
     * it and the path's bottleneck and write that amount as the load of every
     * path edge. A round that sends nothing ends the model with `Stalled`.
     */
    method Transmit(path: seq<nat>, data: real) returns (outcome: FlowOutcome)
      requires InRange(path, |edges|) && LoadsNonNegative(edges)
      requires forall id :: id in capacities ==> capacities[id] >= 0.0
      modifies this
      ensures capacities == old(capacities) && SameIds(edges, old(edges)) && LoadsNonNegative(edges)
      ensures data <= 0.0 ==> outcome == Delivered([]) && edges == old(edges)
      ensures data > 0.0 ==>
        var b := Bottleneck(old(edges), capacities, path);
        if Progresses(b) then
          outcome == Delivered(Rounds(data, b)) && edges == LoadsAfter(old(edges), path, Rounds(data, b))
        else
          outcome == Stalled(b.value) && edges == SetLoads(old(edges), path, b.value)
    {
      ghost var initial := edges;
      ghost var b := Bottleneck(edges, capacities, path);
      var totalData := data;
      var sent: seq<real> := [];
      while totalData > 0.0
        invariant capacities == old(capacities)
        invariant SameIds(edges, initial) && LoadsNonNegative(edges)
        invariant edges == LoadsAfter(initial, path, sent)
        invariant Progresses(b) ==> sent + Rounds(totalData, b) == Rounds(data, b)
        invariant !Progresses(b) ==> sent == [] && totalData == data
        decreases if Progresses(b) then RoundsLeft(totalData, b) else 0
      {
        var bps := SendRound(path, totalData, initial, sent);
        if bps <= 0.0 {
          return Stalled(bps);
        }
        RoundsStep(totalData, b);
        assert (sent + [bps]) + Rounds(totalData - bps, b) == sent + ([bps] + Rounds(totalData - bps, b));
        totalData := totalData - bps;
        sent := sent + [bps];
      }
      if Progresses(b) {
        RoundsDeliverAll(totalData, b);
      }
      outcome := Delivered(sent);
    }

    /**
     * The flow simulation of `calculateAndPrintBpsDijkstra` and
     * `calculateWithCustomWeights`; the two differ only in the weight their
     * path search reads, and the path found is the `route` argument here.
     */
    method SimulateFlow(start: string, end: string, route: Option<seq<nat>>, data: int) returns (outcome: FlowOutcome)
      requires Valid()
      requires route.Some? ==> ValidPath(edges, route.value, start, end)
      modifies this
      ensures Valid() && capacities == old(capacities)
      ensures route.None? ==> outcome == NoPath && edges == old(edges)
      ensures route.Some? && data <= 0 ==> outcome == Delivered([]) && edges == old(edges)
      ensures route.Some? && data > 0 ==>
        var b := Bottleneck(old(edges), capacities, route.value);
        if Progresses(b) then
          && outcome == Delivered(Rounds(data as real, b))
          && edges == LoadsAfter(old(edges), route.value, Rounds(data as real, b))
        else
          && outcome == Stalled(b.value)
          && edges == SetLoads(old(edges), route.value, b.value)
    {
      if route.None? {
        return NoPath;
      }
      outcome := Transmit(route.value, data as real);
      SameIdsUnique(edges, old(edges));
    }

    /** Write integer weight `w` on edge `i`. */
    method SetEdgeWeight(i: nat, w: int)
      requires i < |edges|
      modifies this
      ensures edges == SetWeight(old(edges), i, w) && capacities == old(capacities)
    {
      edges := edges[i := edges[i].(weight := w as real)];
    }

    /**
     * The candidates of one path edge: every weight 1 .. WMax but its current
     * one, read from the cache when the pair was tried before, else written on
     * the edge, evaluated and cached; the edge's weight is restored after.
     */
    method ScanEdgeWeights(e: nat, evaluated: map<(string, int), Cost>, best: Option<Choice>)
      returns (evaluated': map<(string, int), Cost>, best': Option<Choice>)
      requires e < |edges| && Seeded(edges)
      modifies this
      ensures Scan(evaluated', best') ==
        ScanEdge(Trials(old(edges), capacities), Scan(evaluated, best), e, old(edges)[e].id, IntValue(old(edges)[e].weight), WMax)
      ensures edges == old(edges) && capacities == old(capacities)
    {
      ghost var current := edges;
      evaluated', best' := evaluated, best;
      var currentWeight := IntValue(edges[e].weight);
      var newWeight := 1;
      while newWeight <= WMax
        invariant 1 <= newWeight <= WMax + 1 && capacities == old(capacities) && |edges| == |current|
        invariant edges == current[e := current[e].(weight := edges[e].weight)]
        invariant Scan(evaluated', best') ==
          ScanEdge(Trials(current, capacities), Scan(evaluated, best), e, current[e].id, currentWeight, newWeight - 1)
      {
        if newWeight != currentWeight {
          var key := (edges[e].id, newWeight);
          if key in evaluated' {
            var cachedCost := evaluated'[key];
            if Improves(cachedCost, best') {
              best' := Some(Choice(cachedCost.value, e, newWeight));
            }
          } else {
            SetEdgeWeight(e, newWeight);
            assert edges == SetWeight(current, e, newWeight);
            var cost := EvaluateNetworkCost();
            assert cost == Trials(current, capacities)(e, newWeight);
            evaluated' := evaluated'[key := cost];
            if Improves(cost, best') {
              best' := Some(Choice(cost.value, e, newWeight));
            }
          }
        }
        newWeight := newWeight + 1;
      }
      SetEdgeWeight(e, currentWeight);
      assert edges == current;
    }

    /** The scan of one iteration: every path edge's candidates in path order; the weights are left as they were. */
    method ScanPathWeights(path: seq<nat>, evaluated: map<(string, int), Cost>)
      returns (evaluated': map<(string, int), Cost>, best: Option<Choice>)
      requires InRange(path, |edges|) && Seeded(edges)
      modifies this
      ensures Scan(evaluated', best) == ScanPath(old(edges), Trials(old(edges), capacities), Scan(evaluated, None), path, |path|, WMax)
      ensures edges == old(edges) && capacities == old(capacities)
    {
      ghost var current := edges;
      best := None;
      evaluated' := evaluated;
      var k := 0;
      while k < |path|
        invariant 0 <= k <= |path| && edges == current && capacities == old(capacities)
        invariant Scan(evaluated', best) == ScanPath(current, Trials(current, capacities), Scan(evaluated, None), path, k, WMax)
      {
        ScanPathStep(current, Trials(current, capacities), Scan(evaluated, None), path, k, WMax);
        evaluated', best := ScanEdgeWeights(path[k], evaluated', best);
        k := k + 1;
      }
    }

    /** One local-search iteration: scan every path edge, then apply the best trial found, if any. */
    method LocalSearchIteration(path: seq<nat>, evaluated: map<(string, int), Cost>) returns (evaluated': map<(string, int), Cost>)
      requires InRange(path, |edges|) && Seeded(edges)
      modifies this
      ensures OptState(edges, evaluated') == Iteration(old(edges), capacities, path, evaluated)
      ensures capacities == old(capacities)
    {
      var best: Option<Choice>;
      evaluated', best := ScanPathWeights(path, evaluated);
      ScanPathBest(edges, Trials(edges, capacities), Scan(evaluated, None), path, |path|, WMax);
      if best.Some? {
        SetEdgeWeight(best.value.edge, best.value.weight);
      }
    }

    /** The optimiser's seeding: every edge's weight replaced by its seed, nothing else changed. */
    method SeedAllWeights(seeds: seq<int>)
      requires |seeds| == |edges|
      modifies this
      ensures edges == SeedWeights(old(edges), seeds) && capacities == old(capacities)
    {
      var i := 0;
      while i < |edges|
        invariant 0 <= i <= |edges| == |seeds| && capacities == old(capacities)
        invariant forall j :: 0 <= j < |edges| ==>
          edges[j] == if j < i then old(edges[j]).(weight := seeds[j] as real) else old(edges[j])
      {
        edges := edges[i := edges[i].(weight := seeds[i] as real)];
        i := i + 1;
      }
    }

    /** The optimiser's `Iterations` rounds of local search along `path`, starting from an empty cache. */
    method LocalSearch(path: seq<nat>)
      requires InRange(path, |edges|) && Seeded(edges)
      modifies this
      ensures edges == Run(old(edges), capacities, path, map[], Iterations).edges
      ensures capacities == old(capacities)
    {
      ghost var seeded := edges;
      var evaluated: map<(string, int), Cost> := map[];
      var iteration := 0;
      while iteration < Iterations
        invariant 0 <= iteration <= Iterations && capacities == old(capacities)
        invariant InRange(path, |edges|) && |edges| == |seeded|
        invariant OptState(edges, evaluated) == Run(seeded, capacities, path, map[], iteration)
      {
        RunStaysSeeded(seeded, capacities, path, iteration);
        RunStep(seeded, capacities, path, iteration + 1);
        evaluated := LocalSearchIteration(path, evaluated);
        iteration := iteration + 1;
      }
    }

    /**
     * `optimizeNetworkWeights`: seed every weight (the random draws are the
     * `seeds` argument), then, if there is a path (`route`), run the local
     * search for `Iterations` rounds with a cost cache that lives across
     * rounds.
     */
    method OptimizeNetworkWeights(start: string, end: string, seeds: seq<int>, route: Option<seq<nat>>) returns (found: bool)
      requires Valid()
      requires |seeds| == |edges| && forall i :: 0 <= i < |seeds| ==> 1 <= seeds[i] <= WMax
      requires route.Some? ==> ValidPath(edges, route.value, start, end)
      modifies this
      ensures Valid() && capacities == old(capacities)
      ensures found <==> route.Some?
      ensures route.None? ==> edges == SeedWeights(old(edges), seeds)
      ensures route.Some? ==> edges == Run(SeedWeights(old(edges), seeds), capacities, route.value, map[], Iterations).edges
    {
      SeedAllWeights(seeds);
      SeedWeightsSeeded(old(edges), seeds);
      SameIdsUnique(edges, old(edges));
      if route.None? {
        return false;
      }
      ghost var seeded := edges;
      LocalSearch(route.value);
      RunKeepsIdsAndLoads(seeded, capacities, route.value, Iterations);
      SameIdsUnique(edges, seeded);
      return true;
    }
  }
}
