/**
 * The interactive visualizer as an object: the graph's edges with their
 * `weight`, `load` and `ui.style` attributes, the traffic matrix and the
 * `linkLoads` table, and the operations that rewrite them in place —
 * computing link loads, colouring edges relative to the heaviest load,
 * taking load statistics, changing one weight, and the random-perturbation
 * optimiser. Each method is proved against the functions of Traffic.
 */
module TEVisual {
  import opened Util
  import opened Traffic

  /** The number of perturbations one optimiser run makes. */
  const Iterations: nat := 5000

  class NetworkVisualizer {
    /** The graph's edges, in the graph's iteration order. */
    var edges: seq<Edge>
    /** `trafficMatrix`: traffic per edge id. */
    var trafficMatrix: map<string, real>
    /** `linkLoads`: the load computed for each edge id that has traffic. */
    var linkLoads: map<string, real>

    /** Edge ids are unique. */
    ghost predicate Valid()
      reads this
    {
      DistinctIds(edges)
    }

    /** The visualizer once its topology and traffic files are read: edges carry only their weights, and no load has been computed yet. */
    constructor (topology: seq<Edge>, traffic: map<string, real>)
      requires DistinctIds(topology)
      requires forall i :: 0 <= i < |topology| ==> topology[i].load.None? && topology[i].style.None?
      ensures Valid()
      ensures edges == topology && trafficMatrix == traffic && linkLoads == map[]
    {
      edges := topology;
      trafficMatrix := traffic;
      linkLoads := map[];
    }

    /** `computeLinkLoads`: clear the table, then give every edge with traffic the load weight * traffic, in the attribute and in the table. */
    method ComputeLinkLoads()
      requires Valid()
      modifies this
      ensures Valid()
      ensures edges == LoadedEdges(old(edges), trafficMatrix)
      ensures linkLoads == LoadTable(old(edges), trafficMatrix)
      ensures trafficMatrix == old(trafficMatrix)
    {
      ghost var original := edges;
      linkLoads := map[];
      var i := 0;
      while i < |edges|
        invariant 0 <= i <= |edges| == |original|
        invariant trafficMatrix == old(trafficMatrix)
        invariant forall j :: 0 <= j < |edges| ==> edges[j] == if j < i then LoadEdge(original[j], trafficMatrix) else original[j]
        invariant linkLoads == LoadTable(original[..i], trafficMatrix)
      {
        var edge := edges[i];
        assert original[..i + 1][..i] == original[..i];
        if edge.id in trafficMatrix {
          var load := LinkLoad(edge.weight, trafficMatrix[edge.id]);
          edges := edges[i := edge.(load := Some(load))];
          linkLoads := linkLoads[edge.id := load];
        }
        i := i + 1;
      }
      assert original[..i] == original;
      LoadedEdgesChangeOnlyLoads(original, trafficMatrix);
      SameIdsDistinct(edges, original);
    }

    /** `maxLoad`: the largest value of the table, 1.0 when it is empty. */
    method MaxLoad() returns (maxLoad: real)
      ensures IsMaxLoad(linkLoads, maxLoad)
      ensures maxLoad == MaxLoadOf(linkLoads)
    {
      if linkLoads == map[] {
        maxLoad := 1.0;
      } else {
        var first :| first in linkLoads;
        maxLoad := linkLoads[first];
        var rest := linkLoads - {first};
        while rest != map[]
          invariant forall j :: j in rest ==> j in linkLoads && rest[j] == linkLoads[j]
          invariant exists j :: j in linkLoads && linkLoads[j] == maxLoad
          invariant forall j :: j in linkLoads && j !in rest ==> linkLoads[j] <= maxLoad
          decreases |rest|
        {
          var k :| k in rest;
          if rest[k] > maxLoad {
            maxLoad := rest[k];
          }
          assert (rest - {k}).Keys < rest.Keys;
          rest := rest - {k};
        }
      }
      MaxLoadUnique(linkLoads, maxLoad, MaxLoadOf(linkLoads));
    }

    /** `updateGraphColors`: paint every edge by its load (a missing one read as 0.0) against the table's heaviest load. */
    method UpdateGraphColors()
      requires Valid()
      modifies this
      ensures Valid()
      ensures edges == Painted(old(edges), MaxLoadOf(linkLoads))
      ensures linkLoads == old(linkLoads) && trafficMatrix == old(trafficMatrix)
    {
      var maxLoad := MaxLoad();
      ghost var original := edges;
      var i := 0;
      while i < |edges|
        invariant 0 <= i <= |edges| == |original|
        invariant linkLoads == old(linkLoads) && trafficMatrix == old(trafficMatrix)
        invariant forall j :: 0 <= j < |edges| ==>
          edges[j] == if j < i then original[j].(style := Some(RelativeColour(LoadOrZero(original[j].load), maxLoad))) else original[j]
      {
        var load := LoadOrZero(edges[i].load);
        edges := edges[i := edges[i].(style := Some(RelativeColour(load, maxLoad)))];
        i := i + 1;
      }
      PaintedChangesOnlyStyles(original, maxLoad);
      SameIdsDistinct(edges, original);
    }

    /** The average of `displayLoadStatistics`: total over count, 0 for no edges; None where a missing load would be unboxed. */
    method DisplayLoadStatistics() returns (average: Option<real>)
      ensures average == AverageLoad(edges)
    {
      var totalLoad := 0.0;
      var count := 0;
      var i := 0;
      while i < |edges|
        invariant 0 <= i <= |edges| && count == i
        invariant LoadTotal(edges[..i]) == Some(totalLoad)
      {
        assert edges[..i + 1][..i] == edges[..i];
        if edges[i].load.None? {
          LoadTotalIsSum(edges);
          return None;
        }
        totalLoad := totalLoad + edges[i].load.value;
        count := count + 1;
        i := i + 1;
      }
      assert edges[..i] == edges;
      average := Some(if count > 0 then totalLoad / count as real else 0.0);
    }

    /** `graph.getEdge(id)`: the index of the edge with this id, if there is one. */
    method FindEdge(id: string) returns (index: Option<nat>)
      requires Valid()
      ensures index.Some? ==> index.value < |edges| && edges[index.value].id == id
      ensures index.None? ==> forall i :: 0 <= i < |edges| ==> edges[i].id != id
    {
      var i := 0;
      while i < |edges|
        invariant 0 <= i <= |edges|
        invariant forall j :: 0 <= j < i ==> edges[j].id != id
      {
        if edges[i].id == id {
          return Some(i);
        }
        i := i + 1;
      }
      return None;
    }

    /**
     * `changeLinkWeight` once its input is parsed: an unknown edge changes
     * nothing; otherwise the weight is set, the loads are computed twice and
     * the edges repainted. The second load pass changes nothing.
     */
    method ChangeLinkWeight(id: string, newWeight: real) returns (found: bool)
      requires Valid()
      modifies this
      ensures Valid() && trafficMatrix == old(trafficMatrix)
      ensures found <==> exists i :: 0 <= i < |old(edges)| && old(edges)[i].id == id
      ensures !found ==> edges == old(edges) && linkLoads == old(linkLoads)
      ensures found ==> exists i :: 0 <= i < |old(edges)| && old(edges)[i].id == id &&
                                    linkLoads == LoadTable(WithWeight(old(edges), i, newWeight), trafficMatrix) &&
                                    edges == Painted(LoadedEdges(WithWeight(old(edges), i, newWeight), trafficMatrix), MaxLoadOf(linkLoads))
    {
      var index := FindEdge(id);
      if index.None? {
        return false;
      }
      var i := index.value;
      edges := edges[i := edges[i].(weight := newWeight)];
      ghost var changed := edges;
      assert changed == WithWeight(old(edges), i, newWeight);
      assert SameIds(changed, old(edges));
      SameIdsDistinct(changed, old(edges));
      ComputeLinkLoads();
      ComputeLinkLoads();
      LoadPassIdempotent(changed, trafficMatrix);
      UpdateGraphColors();
      found := true;
    }

    /** One iteration of `optimizeOSPFWeights`: the weight step on the drawn edge, then recomputed loads and colours. */
    method OptimiseStep(s: Step)
      requires Valid() && s.pick < |edges|
      modifies this
      ensures Valid() && trafficMatrix == old(trafficMatrix)
      ensures edges == Iterate(old(edges), trafficMatrix, s)
      ensures linkLoads == LoadTable(edges, trafficMatrix)
    {
      var currentWeight := edges[s.pick].weight;
      var newWeight := currentWeight + s.delta;
      if newWeight <= 0.0 {
        newWeight := 1.0;
      }
      edges := edges[s.pick := edges[s.pick].(weight := newWeight)];
      ghost var perturbed := edges;
      assert perturbed == Perturb(old(edges), s);
      PerturbChangesOneWeight(old(edges), s);
      SameIdsDistinct(perturbed, old(edges));
      ComputeLinkLoads();
      ghost var loaded := edges;
      UpdateGraphColors();
      LoadedEdgesChangeOnlyLoads(perturbed, trafficMatrix);
      PaintedChangesOnlyStyles(loaded, MaxLoadOf(linkLoads));
      LoadTableReadsIdsAndWeights(edges, perturbed, trafficMatrix);
    }

    /**
     * `optimizeOSPFWeights` with its random draws given: 5000 weight steps,
     * each followed by recomputed loads and colours, and the statistics on
     * every hundredth, which throw when an edge has no load.
     */
    method OptimizeOSPFWeights(steps: seq<Step>) returns (outcome: Outcome)
      requires Valid()
      requires |steps| == Iterations && PicksBelow(steps, |edges|)
      modifies this
      ensures Valid() && trafficMatrix == old(trafficMatrix)
      ensures (edges, outcome) == RunFrom(old(edges), trafficMatrix, steps, 0)
      ensures linkLoads == LoadTable(edges, trafficMatrix)
    {
      var iter := 0;
      while iter < Iterations
        invariant 0 <= iter <= Iterations
        invariant Valid() && trafficMatrix == old(trafficMatrix)
        invariant PicksBelow(steps, |edges|)
        invariant RunFrom(edges, trafficMatrix, steps, iter) == RunFrom(old(edges), trafficMatrix, steps, 0)
        invariant iter > 0 ==> linkLoads == LoadTable(edges, trafficMatrix)
      {
        ghost var before := edges;
        OptimiseStep(steps[iter]);
        RunFromStep(before, trafficMatrix, steps, iter, edges);
        if iter % 100 == 0 {
          var average := DisplayLoadStatistics();
          if average.None? {
            return Aborted(iter);
          }
        }
        iter := iter + 1;
      }
      outcome := Completed;
    }
  }
}
