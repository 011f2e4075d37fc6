/**
 * The root visualizer's network: directed edges with a link cost, a routing
 * weight and a current load, plus a side table of capacities keyed by edge id.
 * Here live the pure functions both the flow simulation and the weight
 * optimiser are specified by: the network cost and the label colour.
 */
module Network {
  import opened Util
  import opened Congestion

  /**
   * One directed edge; `id` is "<source>-<target>". The source keeps
   * `linkcost`, `weight` and `load` as graph attributes; `load` is set to 0.0
   * when the edge is created and is never absent afterwards.
   */
  datatype Edge = Edge(id: string, source: string, target: string, linkCost: real, weight: real, load: real)

  /** `Map.getOrDefault` on the capacity table. */
  function CapacityOr(capacities: map<string, real>, id: string, default: real): real
  {
    if id in capacities then capacities[id] else default
  }

  /** Edge ids are unique, as GraphStream graph ids are. */
  predicate UniqueIds(edges: seq<Edge>)
  {
    forall i, j :: 0 <= i < j < |edges| ==> edges[i].id != edges[j].id
  }

  /** Two edge tables of the same length whose edges have the same ids, position by position. */
  predicate SameIds(a: seq<Edge>, b: seq<Edge>)
  {
    |a| == |b| && forall i :: 0 <= i < |a| ==> a[i].id == b[i].id
  }

  /** No edge carries a negative load. */
  predicate LoadsNonNegative(edges: seq<Edge>)
  {
    forall i :: 0 <= i < |edges| ==> edges[i].load >= 0.0
  }

  /** Two edge tables that differ at most in weights and link costs. */
  predicate SameIdsAndLoads(a: seq<Edge>, b: seq<Edge>)
  {
    SameIds(a, b) && forall i :: 0 <= i < |a| ==> a[i].load == b[i].load
  }

  lemma SameIdsAndLoadsTrans(a: seq<Edge>, b: seq<Edge>, c: seq<Edge>)
    requires SameIdsAndLoads(a, b) && SameIdsAndLoads(b, c)
    ensures SameIdsAndLoads(a, c)
  {
  }

  /** Uniqueness of ids carries over to a table with the same ids. */
  lemma SameIdsUnique(a: seq<Edge>, b: seq<Edge>)
    requires SameIds(a, b) && UniqueIds(b)
    ensures UniqueIds(a)
  {
    forall i, j | 0 <= i < j < |a|
      ensures a[i].id != a[j].id
    {
      assert b[i].id != b[j].id;
    }
  }

  /**
   * A path produced by the shortest-path search: edge indices in traversal
   * order, each edge starting where the previous one ended, from `start` to
   * `end`. The empty path joins a node to itself.
   */
  predicate ValidPath(edges: seq<Edge>, path: seq<nat>, start: string, end: string)
  {
    && (forall k :: 0 <= k < |path| ==> path[k] < |edges|)
    && (|path| == 0 ==> start == end)
    && (|path| > 0 ==> edges[path[0]].source == start && edges[path[|path| - 1]].target == end)
    && (forall k :: 0 <= k < |path| - 1 ==> edges[path[k]].target == edges[path[k + 1]].source)
  }

  /**
   * A network cost as a Java double: a real, or an infinity/NaN, which is what
   * dividing a non-negative load by a stored capacity of 0.0 yields. Once
   * present, an infinity or NaN absorbs every later addition.
   */
  datatype Cost = Finite(value: real) | NonFinite

  /** Java `+` on two costs. */
  function Plus(a: Cost, b: Cost): Cost
  {
    if a.Finite? && b.Finite? then Finite(a.value + b.value) else NonFinite
  }

  /** Contribution of one edge: its utilisation's cost, with a missing capacity read as 1.0. */
  function EdgeContribution(e: Edge, capacities: map<string, real>): Cost
  {
    if CapacityOr(capacities, e.id, 1.0) == 0.0 then NonFinite else Finite(EdgeCost(Utilisation(e, capacities)))
  }

  /** Total cost of the network: the contributions added up in edge order. */
  function NetworkCost(edges: seq<Edge>, capacities: map<string, real>): Cost
  {
    if |edges| == 0 then Finite(0.0)
    else Plus(NetworkCost(edges[..|edges| - 1], capacities), EdgeContribution(edges[|edges| - 1], capacities))
  }

  /** Every edge has a non-zero capacity once a missing one is read as 1.0. */
  predicate CapacitiesNonZero(edges: seq<Edge>, capacities: map<string, real>)
  {
    forall i :: 0 <= i < |edges| ==> CapacityOr(capacities, edges[i].id, 1.0) != 0.0
  }

  /** Utilisation of an edge as the cost function reads it. */
  function Utilisation(e: Edge, capacities: map<string, real>): real
    requires CapacityOr(capacities, e.id, 1.0) != 0.0
  {
    e.load / CapacityOr(capacities, e.id, 1.0)
  }

  /** The sum of the per-edge costs, the intended meaning of a finite network cost. */
  function CostSum(edges: seq<Edge>, capacities: map<string, real>): real
    requires CapacitiesNonZero(edges, capacities)
  {
    if |edges| == 0 then 0.0
    else EdgeCost(Utilisation(edges[0], capacities)) + CostSum(edges[1..], capacities)
  }

  /**
   * Two edge tables that agree on every id and load cost the same: the network
   * cost never reads a weight, so no weight assignment changes it.
   */
  lemma {:induction false} NetworkCostIgnoresWeights(a: seq<Edge>, b: seq<Edge>, capacities: map<string, real>)
    requires |a| == |b|
    requires forall i :: 0 <= i < |a| ==> a[i].id == b[i].id && a[i].load == b[i].load
    ensures NetworkCost(a, capacities) == NetworkCost(b, capacities)
  {
    if |a| > 0 {
      NetworkCostIgnoresWeights(a[..|a| - 1], b[..|b| - 1], capacities);
    }
  }

  /** Changing one edge's weight leaves the network cost as it was. */
  lemma NetworkCostIgnoresWeight(edges: seq<Edge>, i: nat, w: real, capacities: map<string, real>)
    requires i < |edges|
    ensures NetworkCost(edges[i := edges[i].(weight := w)], capacities) == NetworkCost(edges, capacities)
  {
    NetworkCostIgnoresWeights(edges[i := edges[i].(weight := w)], edges, capacities);
  }

  /**
   * The network cost is finite exactly when no edge has a stored capacity of
   * 0.0, and then it is the sum of the per-edge costs.
   */
  lemma {:induction false} NetworkCostIsSum(edges: seq<Edge>, capacities: map<string, real>)
    ensures NetworkCost(edges, capacities).Finite? <==> CapacitiesNonZero(edges, capacities)
    ensures NetworkCost(edges, capacities).Finite? ==> NetworkCost(edges, capacities).value == CostSum(edges, capacities)
  {
    if |edges| > 0 {
      var init := edges[..|edges| - 1];
      NetworkCostIsSum(init, capacities);
      assert init + [edges[|edges| - 1]] == edges;
      if NetworkCost(edges, capacities).Finite? {
        forall i | 0 <= i < |edges|
          ensures CapacityOr(capacities, edges[i].id, 1.0) != 0.0
        {
          if i < |edges| - 1 {
            assert edges[i] == init[i];
          }
        }
        CostSumAppend(init, edges[|edges| - 1], capacities);
      } else if NetworkCost(init, capacities).NonFinite? {
        var j :| 0 <= j < |init| && CapacityOr(capacities, init[j].id, 1.0) == 0.0;
        assert edges[j] == init[j];
      }
    }
  }

  lemma {:induction false} CostSumAppend(edges: seq<Edge>, e: Edge, capacities: map<string, real>)
    requires CapacitiesNonZero(edges + [e], capacities)
    ensures CapacitiesNonZero(edges, capacities) && CapacityOr(capacities, e.id, 1.0) != 0.0
    ensures CostSum(edges + [e], capacities) == CostSum(edges, capacities) + EdgeCost(Utilisation(e, capacities))
  {
    assert forall i :: 0 <= i < |edges| ==> (edges + [e])[i] == edges[i];
    assert (edges + [e])[|edges|] == e;
    if |edges| == 0 {
      assert edges + [e] == [e];
    } else {
      assert (edges + [e])[1..] == edges[1..] + [e];
      CostSumAppend(edges[1..], e, capacities);
    }
  }

  /** A network whose every edge runs below 11/10 of its capacity has a non-negative finite cost. */
  lemma {:induction false} NetworkCostNonNegative(edges: seq<Edge>, capacities: map<string, real>)
    requires CapacitiesNonZero(edges, capacities)
    requires forall i :: 0 <= i < |edges| ==> 0.0 <= Utilisation(edges[i], capacities) < 11.0 / 10.0
    ensures NetworkCost(edges, capacities).Finite? && NetworkCost(edges, capacities).value >= 0.0
  {
    if |edges| > 0 {
      var last := edges[|edges| - 1];
      assert forall i :: 0 <= i < |edges| - 1 ==> edges[..|edges| - 1][i] == edges[i];
      NetworkCostNonNegative(edges[..|edges| - 1], capacities);
      EdgeCostBounds(Utilisation(last, capacities));
    }
  }

  /** `updateEdgeLabel`'s load percentage: 0 unless the capacity (default 0.0) is positive. */
  function LoadPercentage(load: real, capacity: real): real
  {
    if capacity > 0.0 then (load / capacity) * 100.0 else 0.0
  }

  /** `updateEdgeLabel`'s colour: red above 75 percent, orange above 50, green otherwise. */
  function LabelColour(percentage: real): Colour
  {
    if percentage > 75.0 then Red
    else if percentage > 50.0 then Orange
    else Green
  }

  /** The colour of an edge label, read without percentages: thresholds on the load itself. */
  lemma LabelColourThresholds(load: real, capacity: real)
    ensures LabelColour(LoadPercentage(load, capacity)) == Red <==> capacity > 0.0 && 4.0 * load > 3.0 * capacity
    ensures LabelColour(LoadPercentage(load, capacity)) == Orange <==>
      capacity > 0.0 && 2.0 * load > capacity && 4.0 * load <= 3.0 * capacity
    ensures LabelColour(LoadPercentage(load, capacity)) == Green <==> capacity <= 0.0 || 2.0 * load <= capacity
  {
    if capacity > 0.0 {
      var p := LoadPercentage(load, capacity);
      PercentageScaled(load, capacity);
      ThresholdOnLoad(p, load, capacity, 75.0);
      ThresholdOnLoad(p, load, capacity, 50.0);
    }
  }

  lemma PercentageScaled(load: real, capacity: real)
    requires capacity > 0.0
    ensures LoadPercentage(load, capacity) * capacity == 100.0 * load
  {
    assert (load / capacity) * capacity == load;
  }

  lemma ThresholdOnLoad(p: real, load: real, capacity: real, t: real)
    requires capacity > 0.0 && p * capacity == 100.0 * load
    ensures p > t <==> 100.0 * load > t * capacity
  {
    ScaleCompare(p, t, capacity);
  }

  /** At a fixed capacity a heavier load never moves the label back towards green. */
  lemma LabelColourMonotone(load: real, heavier: real, capacity: real)
    requires load <= heavier
    ensures Rank(LabelColour(LoadPercentage(load, capacity))) <= Rank(LabelColour(LoadPercentage(heavier, capacity)))
  {
    LabelColourThresholds(load, capacity);
    LabelColourThresholds(heavier, capacity);
  }
}
