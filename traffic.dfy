/**
 * The interactive visualizer's model of a network: edges carrying a routing
 * weight, an optional load attribute (absent until loads are first computed
 * for the edge) and an optional fill colour, and a traffic matrix keyed by
 * edge id. Link load is weight times traffic; edges are coloured relative to
 * the heaviest load; the optimiser perturbs one weight at a time. These are
 * the functions the methods of TEVisual are proved against.
 */
module Traffic {
  import opened Util

  /** One directed edge "<source>-<target>" with its `weight`, `load` and `ui.style` colour attributes. */
  datatype Edge = Edge(id: string, weight: real, load: Option<real>, style: Option<Colour>)

  /** Edge ids are unique, as GraphStream graph ids are. */
  predicate DistinctIds(edges: seq<Edge>)
  {
    forall i, j :: 0 <= i < j < |edges| ==> edges[i].id != edges[j].id
  }

  /** Two edge tables with the same ids, position by position. */
  predicate SameIds(a: seq<Edge>, b: seq<Edge>)
  {
    |a| == |b| && forall i :: 0 <= i < |a| ==> a[i].id == b[i].id
  }

  /** Distinct ids carry over to a table with the same ids. */
  lemma SameIdsDistinct(a: seq<Edge>, b: seq<Edge>)
    requires SameIds(a, b) && DistinctIds(b)
    ensures DistinctIds(a)
  {
    forall i, j | 0 <= i < j < |a|
      ensures a[i].id != a[j].id
    {
      assert b[i].id != b[j].id;
    }
  }

  /** Two edge tables with the same ids and weights, position by position. */
  predicate SameIdsAndWeights(a: seq<Edge>, b: seq<Edge>)
  {
    |a| == |b| && forall i :: 0 <= i < |a| ==> a[i].id == b[i].id && a[i].weight == b[i].weight
  }

  // ---------------------------------------------------------------------------
  // Link loads
  // ---------------------------------------------------------------------------

  /** The load of an edge with traffic: its weight times its traffic. */
  function LinkLoad(weight: real, traffic: real): real
  {
    weight * traffic
  }

  /** One edge after the load pass: load weight * traffic when it has traffic, untouched otherwise. */
  function LoadEdge(e: Edge, traffic: map<string, real>): Edge
  {
    if e.id in traffic then e.(load := Some(LinkLoad(e.weight, traffic[e.id]))) else e
  }

  /** Every edge after the load pass. */
  function LoadedEdges(edges: seq<Edge>, traffic: map<string, real>): (r: seq<Edge>)
    ensures |r| == |edges|
  {
    seq(|edges|, i requires 0 <= i < |edges| => LoadEdge(edges[i], traffic))
  }

  /** The load table the pass builds in edge order, starting from an empty table. */
  function LoadTable(edges: seq<Edge>, traffic: map<string, real>): map<string, real>
  {
    if |edges| == 0 then map[]
    else
      var table := LoadTable(edges[..|edges| - 1], traffic);
      var e := edges[|edges| - 1];
      if e.id in traffic then table[e.id := LinkLoad(e.weight, traffic[e.id])] else table
  }

  /** The load pass touches only loads: ids, weights and colours stay, and edges without traffic keep their old load. */
  lemma LoadedEdgesChangeOnlyLoads(edges: seq<Edge>, traffic: map<string, real>)
    ensures SameIdsAndWeights(LoadedEdges(edges, traffic), edges)
    ensures forall i :: 0 <= i < |edges| ==> LoadedEdges(edges, traffic)[i].style == edges[i].style
    ensures forall i :: 0 <= i < |edges| && edges[i].id in traffic ==>
      LoadedEdges(edges, traffic)[i].load == Some(LinkLoad(edges[i].weight, traffic[edges[i].id]))
    ensures forall i :: 0 <= i < |edges| && edges[i].id !in traffic ==>
      LoadedEdges(edges, traffic)[i].load == edges[i].load
  {
    forall i | 0 <= i < |edges|
      ensures LoadedEdges(edges, traffic)[i] == LoadEdge(edges[i], traffic)
    {
    }
  }

  /** The table holds an entry for exactly the edges that have traffic. */
  lemma {:induction false} LoadTableKeys(edges: seq<Edge>, traffic: map<string, real>)
    ensures forall id :: id in LoadTable(edges, traffic) <==>
      id in traffic && exists i :: 0 <= i < |edges| && edges[i].id == id
  {
    if |edges| > 0 {
      var init := edges[..|edges| - 1];
      LoadTableKeys(init, traffic);
      forall id | id in traffic && (exists i :: 0 <= i < |edges| && edges[i].id == id)
        ensures id in LoadTable(edges, traffic)
      {
        var i :| 0 <= i < |edges| && edges[i].id == id;
        if i < |edges| - 1 {
          assert init[i].id == id;
        }
      }
      forall id | id in LoadTable(edges, traffic)
        ensures exists i :: 0 <= i < |edges| && edges[i].id == id
      {
        if id != edges[|edges| - 1].id {
          var i :| 0 <= i < |init| && init[i].id == id;
          assert edges[i].id == id;
        }
      }
    }
  }

  /** With distinct ids, each edge with traffic has its own entry, weight * traffic. */
  lemma {:induction false} LoadTableValues(edges: seq<Edge>, traffic: map<string, real>)
    requires DistinctIds(edges)
    ensures forall i :: 0 <= i < |edges| && edges[i].id in traffic ==>
      edges[i].id in LoadTable(edges, traffic) && LoadTable(edges, traffic)[edges[i].id] == LinkLoad(edges[i].weight, traffic[edges[i].id])
  {
    if |edges| > 0 {
      var init := edges[..|edges| - 1];
      assert DistinctIds(init) by {
        forall i, j | 0 <= i < j < |init|
          ensures init[i].id != init[j].id
        {
          assert edges[i].id != edges[j].id;
        }
      }
      LoadTableValues(init, traffic);
      forall i | 0 <= i < |edges| - 1 && edges[i].id in traffic
        ensures LoadTable(edges, traffic)[edges[i].id] == LinkLoad(edges[i].weight, traffic[edges[i].id])
      {
        assert init[i] == edges[i];
        assert edges[i].id != edges[|edges| - 1].id;
      }
    }
  }

  /** After the pass the table and the load attributes agree on every edge with traffic. */
  lemma TableMatchesLoads(edges: seq<Edge>, traffic: map<string, real>)
    requires DistinctIds(edges)
    ensures forall i :: 0 <= i < |edges| && edges[i].id in traffic ==>
      edges[i].id in LoadTable(edges, traffic) &&
      LoadedEdges(edges, traffic)[i].load == Some(LoadTable(edges, traffic)[edges[i].id])
  {
    LoadTableValues(edges, traffic);
    LoadedEdgesChangeOnlyLoads(edges, traffic);
  }

  /** The table reads only ids and weights, so tables with the same ids and weights are equal. */
  lemma {:induction false} LoadTableReadsIdsAndWeights(a: seq<Edge>, b: seq<Edge>, traffic: map<string, real>)
    requires SameIdsAndWeights(a, b)
    ensures LoadTable(a, traffic) == LoadTable(b, traffic)
  {
    if |a| > 0 {
      assert SameIdsAndWeights(a[..|a| - 1], b[..|b| - 1]);
      LoadTableReadsIdsAndWeights(a[..|a| - 1], b[..|b| - 1], traffic);
      assert a[|a| - 1].id == b[|b| - 1].id && a[|a| - 1].weight == b[|b| - 1].weight;
    }
  }

  /** A second load pass right after a first changes nothing, neither the edges nor the table. */
  lemma LoadPassIdempotent(edges: seq<Edge>, traffic: map<string, real>)
    ensures LoadedEdges(LoadedEdges(edges, traffic), traffic) == LoadedEdges(edges, traffic)
    ensures LoadTable(LoadedEdges(edges, traffic), traffic) == LoadTable(edges, traffic)
  {
    var once := LoadedEdges(edges, traffic);
    LoadedEdgesChangeOnlyLoads(edges, traffic);
    LoadedEdgesChangeOnlyLoads(once, traffic);
    forall i | 0 <= i < |edges|
      ensures LoadedEdges(once, traffic)[i] == once[i]
    {
    }
    LoadTableReadsIdsAndWeights(once, edges, traffic);
  }

  // ---------------------------------------------------------------------------
  // Colours relative to the heaviest load
  // ---------------------------------------------------------------------------

  /** `m` is the heaviest entry of the table, or 1.0 when the table is empty. */
  predicate IsMaxLoad(table: map<string, real>, m: real)
  {
    if table == map[] then m == 1.0
    else (exists k :: k in table && table[k] == m) && forall k :: k in table ==> table[k] <= m
  }

  /** The table has one heaviest load and no other. */
  lemma MaxLoadUnique(table: map<string, real>, a: real, b: real)
    requires IsMaxLoad(table, a) && IsMaxLoad(table, b)
    ensures a == b
  {
  }

  /** A key of a non-empty table whose entry no other entry exceeds. */
  ghost function HeaviestKey(table: map<string, real>): (k: string)
    requires table != map[]
    ensures k in table && forall j :: j in table ==> table[j] <= table[k]
    decreases |table|
  {
    var x :| x in table;
    var rest := table - {x};
    assert forall j :: j in table ==> j == x || j in rest;
    if rest == map[] then x
    else
      assert |rest| < |table| by {
        assert rest.Keys < table.Keys;
      }
      var m := HeaviestKey(rest);
      if table[x] > table[m] then x else m
  }

  /** The heaviest load of the table, 1.0 for the empty table. */
  ghost function MaxLoadOf(table: map<string, real>): (m: real)
    ensures IsMaxLoad(table, m)
  {
    if table == map[] then 1.0 else table[HeaviestKey(table)]
  }

  /** A missing load attribute is read as 0.0. */
  function LoadOrZero(load: Option<real>): real
  {
    if load.Some? then load.value else 0.0
  }

  /** The fill colour: green below half the heaviest load, orange below 8/10 of it, red otherwise. */
  function RelativeColour(load: real, maxLoad: real): Colour
  {
    if load < 0.5 * maxLoad then Green
    else if load < 0.8 * maxLoad then Orange
    else Red
  }

  /** The pass that paints every edge for the given heaviest load. */
  function Painted(edges: seq<Edge>, maxLoad: real): (r: seq<Edge>)
    ensures |r| == |edges|
  {
    seq(|edges|, i requires 0 <= i < |edges| => edges[i].(style := Some(RelativeColour(LoadOrZero(edges[i].load), maxLoad))))
  }

  /** With a non-negative heaviest load, the colours are the three bands [0, 1/2), [1/2, 8/10) and [8/10, ...) of it. */
  lemma RelativeColourBands(load: real, maxLoad: real)
    requires maxLoad >= 0.0
    ensures RelativeColour(load, maxLoad) == Green <==> 2.0 * load < maxLoad
    ensures RelativeColour(load, maxLoad) == Orange <==> maxLoad <= 2.0 * load && 5.0 * load < 4.0 * maxLoad
    ensures RelativeColour(load, maxLoad) == Red <==> 4.0 * maxLoad <= 5.0 * load
  {
  }

  /** A heavier load never gets a colour nearer green, whatever the heaviest load. */
  lemma RelativeColourMonotone(load: real, heavier: real, maxLoad: real)
    requires load <= heavier
    ensures Rank(RelativeColour(load, maxLoad)) <= Rank(RelativeColour(heavier, maxLoad))
  {
  }

  /** The edge that carries the heaviest entry of the table is red. */
  lemma HeaviestIsRed(table: map<string, real>, id: string)
    requires id in table && table[id] >= 0.0
    requires forall k :: k in table ==> table[k] <= table[id]
    ensures RelativeColour(table[id], MaxLoadOf(table)) == Red
  {
    var m := MaxLoadOf(table);
    var k :| k in table && table[k] == m;
  }

  /** When every entry of the table is 0.0, every edge whose load is missing or non-negative is red. */
  lemma ZeroTableAllRed(table: map<string, real>, load: Option<real>)
    requires table != map[] && forall k :: k in table ==> table[k] == 0.0
    requires LoadOrZero(load) >= 0.0
    ensures RelativeColour(LoadOrZero(load), MaxLoadOf(table)) == Red
  {
    var m := MaxLoadOf(table);
    var k :| k in table && table[k] == m;
  }

  /** Painting changes only colours, and gives each edge the colour of its own load. */
  lemma PaintedChangesOnlyStyles(edges: seq<Edge>, maxLoad: real)
    ensures SameIdsAndWeights(Painted(edges, maxLoad), edges)
    ensures forall i :: 0 <= i < |edges| ==> Painted(edges, maxLoad)[i].load == edges[i].load
    ensures forall i :: 0 <= i < |edges| ==>
      Painted(edges, maxLoad)[i].style == Some(RelativeColour(LoadOrZero(edges[i].load), maxLoad))
  {
  }

  // ---------------------------------------------------------------------------
  // Load statistics
  // ---------------------------------------------------------------------------

  /** Sum of the loads in edge order; None when an edge has no load, where unboxing throws. */
  function LoadTotal(edges: seq<Edge>): Option<real>
  {
    if |edges| == 0 then Some(0.0)
    else
      match LoadTotal(edges[..|edges| - 1])
      case None => None
      case Some(t) => if edges[|edges| - 1].load.None? then None else Some(t + edges[|edges| - 1].load.value)
  }

  /** The average load, 0 for no edges; None when an edge has no load. */
  function AverageLoad(edges: seq<Edge>): Option<real>
  {
    match LoadTotal(edges)
    case None => None
    case Some(t) => Some(if |edges| > 0 then t / |edges| as real else 0.0)
  }

  /** Every edge has a load attribute. */
  predicate AllLoaded(edges: seq<Edge>)
  {
    forall i :: 0 <= i < |edges| ==> edges[i].load.Some?
  }

  /** The loads of fully loaded edges, in edge order. */
  function Loads(edges: seq<Edge>): (r: seq<real>)
    requires AllLoaded(edges)
    ensures |r| == |edges|
  {
    seq(|edges|, i requires 0 <= i < |edges| => edges[i].load.value)
  }

  /** The total exists exactly when every edge is loaded, and then it is the sum of the loads. */
  lemma {:induction false} LoadTotalIsSum(edges: seq<Edge>)
    ensures LoadTotal(edges).Some? <==> AllLoaded(edges)
    ensures AllLoaded(edges) ==> LoadTotal(edges) == Some(Sum(Loads(edges)))
  {
    if |edges| > 0 {
      var init := edges[..|edges| - 1];
      LoadTotalIsSum(init);
      if AllLoaded(edges) {
        assert AllLoaded(init) by {
          forall i | 0 <= i < |init|
            ensures init[i].load.Some?
          {
            assert init[i] == edges[i];
          }
        }
        assert Loads(edges) == Loads(init) + [edges[|edges| - 1].load.value];
        SumAppend(Loads(init), edges[|edges| - 1].load.value);
      } else if AllLoaded(init) {
        assert edges[|edges| - 1].load.None? by {
          forall i | 0 <= i < |edges| - 1
            ensures edges[i].load.Some?
          {
            assert init[i] == edges[i];
          }
        }
      } else {
        var i :| 0 <= i < |init| && init[i].load.None?;
        assert edges[i].load.None?;
      }
    }
  }

  /** Loads all within [lo, hi] sum to between count * lo and count * hi. */
  lemma {:induction false} SumBetween(s: seq<real>, lo: real, hi: real)
    requires forall i :: 0 <= i < |s| ==> lo <= s[i] <= hi
    ensures |s| as real * lo <= Sum(s) <= |s| as real * hi
  {
    if |s| > 0 {
      SumBetween(s[1..], lo, hi);
      assert s[0] == s[..][0];
    }
  }

  /** The average of loads that all lie in [lo, hi] lies in [lo, hi] too. */
  lemma AverageWithinBounds(edges: seq<Edge>, lo: real, hi: real)
    requires |edges| > 0 && AllLoaded(edges)
    requires forall i :: 0 <= i < |edges| ==> lo <= edges[i].load.value <= hi
    ensures AverageLoad(edges).Some? && lo <= AverageLoad(edges).value <= hi
  {
    LoadTotalIsSum(edges);
    var n := |edges| as real;
    SumBetween(Loads(edges), lo, hi);
    var t := Sum(Loads(edges));
    assert (t / n) * n == t;
    ScaleCompare(t / n, hi, n);
    ScaleCompare(lo, t / n, n);
  }

  /** The average times the number of edges gives back the total. */
  lemma AverageTimesCount(edges: seq<Edge>)
    requires AllLoaded(edges)
    ensures AverageLoad(edges).Some?
    ensures AverageLoad(edges).value * |edges| as real == Sum(Loads(edges))
  {
    LoadTotalIsSum(edges);
    if |edges| == 0 {
      assert Loads(edges) == [];
    }
  }

  // ---------------------------------------------------------------------------
  // Weight perturbation
  // ---------------------------------------------------------------------------

  /** One optimiser draw: the index of the edge to change and the random offset added to its weight. */
  datatype Step = Step(pick: nat, delta: real)

  /** The new weight: current + delta, or 1 when that is not positive. */
  function NextWeight(current: real, delta: real): real
  {
    if current + delta <= 0.0 then 1.0 else current + delta
  }

  /** The new weight is positive, and it is current + delta whenever that is positive. */
  lemma NextWeightPositive(current: real, delta: real)
    ensures NextWeight(current, delta) > 0.0
    ensures current + delta > 0.0 <==> NextWeight(current, delta) == current + delta
  {
  }

  /** Edge `i` with its weight set to `w`, every other edge as it was. */
  function WithWeight(edges: seq<Edge>, i: nat, w: real): (r: seq<Edge>)
    requires i < |edges|
    ensures |r| == |edges|
  {
    edges[i := edges[i].(weight := w)]
  }

  /** The weight write of one draw: edge `pick` gets its next weight, nothing else changes. */
  function Perturb(edges: seq<Edge>, s: Step): (r: seq<Edge>)
    requires s.pick < |edges|
    ensures |r| == |edges|
  {
    WithWeight(edges, s.pick, NextWeight(edges[s.pick].weight, s.delta))
  }

  /** The weight write changes exactly the picked edge's weight. */
  lemma PerturbChangesOneWeight(edges: seq<Edge>, s: Step)
    requires s.pick < |edges|
    ensures SameIds(Perturb(edges, s), edges)
    ensures Perturb(edges, s)[s.pick].weight == NextWeight(edges[s.pick].weight, s.delta) > 0.0
    ensures forall i :: 0 <= i < |edges| ==> Perturb(edges, s)[i].load == edges[i].load
    ensures forall i :: 0 <= i < |edges| && i != s.pick ==> Perturb(edges, s)[i] == edges[i]
  {
    NextWeightPositive(edges[s.pick].weight, s.delta);
  }

  // ---------------------------------------------------------------------------
  // The optimiser's iterations
  // ---------------------------------------------------------------------------

  /** One optimiser iteration: the weight write, the load pass, then painting for the new table's heaviest load. */
  ghost function Iterate(edges: seq<Edge>, traffic: map<string, real>, s: Step): (r: seq<Edge>)
    requires s.pick < |edges|
    ensures |r| == |edges|
  {
    var perturbed := Perturb(edges, s);
    Painted(LoadedEdges(perturbed, traffic), MaxLoadOf(LoadTable(perturbed, traffic)))
  }

  /** An iteration keeps the ids, and every weight except the picked one; the picked one gets its next weight. */
  lemma IterateChangesOneWeight(edges: seq<Edge>, traffic: map<string, real>, s: Step)
    requires s.pick < |edges|
    ensures SameIds(Iterate(edges, traffic, s), edges)
    ensures Iterate(edges, traffic, s)[s.pick].weight == NextWeight(edges[s.pick].weight, s.delta)
    ensures forall i :: 0 <= i < |edges| && i != s.pick ==> Iterate(edges, traffic, s)[i].weight == edges[i].weight
  {
    var perturbed := Perturb(edges, s);
    PerturbChangesOneWeight(edges, s);
    LoadedEdgesChangeOnlyLoads(perturbed, traffic);
    PaintedChangesOnlyStyles(LoadedEdges(perturbed, traffic), MaxLoadOf(LoadTable(perturbed, traffic)));
  }

  /** After an iteration each edge's load is the new load where it has traffic, and its old load where it has none. */
  lemma IterateLoads(edges: seq<Edge>, traffic: map<string, real>, s: Step)
    requires s.pick < |edges|
    ensures forall i :: 0 <= i < |edges| && edges[i].id in traffic ==> Iterate(edges, traffic, s)[i].load.Some?
    ensures forall i :: 0 <= i < |edges| && edges[i].id !in traffic ==> Iterate(edges, traffic, s)[i].load == edges[i].load
  {
    var perturbed := Perturb(edges, s);
    PerturbChangesOneWeight(edges, s);
    LoadedEdgesChangeOnlyLoads(perturbed, traffic);
    PaintedChangesOnlyStyles(LoadedEdges(perturbed, traffic), MaxLoadOf(LoadTable(perturbed, traffic)));
  }

  /** How the optimiser ends: all iterations done, or thrown out of at an iteration whose statistics met a missing load. */
  datatype Outcome = Completed | Aborted(iteration: nat)

  /** Every draw picks an edge index below `n`. */
  predicate PicksBelow(steps: seq<Step>, n: nat)
  {
    forall k :: 0 <= k < |steps| ==> steps[k].pick < n
  }

  /**
   * The optimiser from iteration `iter` on: each iteration draws, writes,
   * recomputes and repaints; every hundredth takes the statistics, which end
   * the run when an edge has no load.
   */
  ghost function RunFrom(edges: seq<Edge>, traffic: map<string, real>, steps: seq<Step>, iter: nat): (r: (seq<Edge>, Outcome))
    requires iter <= |steps| && PicksBelow(steps, |edges|)
    ensures |r.0| == |edges|
    decreases |steps| - iter
  {
    if iter == |steps| then (edges, Completed)
    else
      var next := Iterate(edges, traffic, steps[iter]);
      if iter % 100 == 0 && AverageLoad(next).None? then (next, Aborted(iter))
      else RunFrom(next, traffic, steps, iter + 1)
  }

  /** One iteration of the run, unfolded: abort at a statistics iteration that meets a missing load, go on otherwise. */
  lemma RunFromStep(edges: seq<Edge>, traffic: map<string, real>, steps: seq<Step>, iter: nat, next: seq<Edge>)
    requires iter < |steps| && PicksBelow(steps, |edges|)
    requires next == Iterate(edges, traffic, steps[iter])
    ensures PicksBelow(steps, |next|)
    ensures iter % 100 == 0 && AverageLoad(next).None? ==> RunFrom(edges, traffic, steps, iter) == (next, Aborted(iter))
    ensures !(iter % 100 == 0 && AverageLoad(next).None?) ==> RunFrom(edges, traffic, steps, iter) == RunFrom(next, traffic, steps, iter + 1)
  {
  }

  /** The run keeps every id in place, and every weight positive when all start positive; an abort falls on a multiple of 100. */
  lemma {:induction false} RunKeepsIdsAndPositiveWeights(edges: seq<Edge>, traffic: map<string, real>, steps: seq<Step>, iter: nat)
    requires iter <= |steps| && PicksBelow(steps, |edges|)
    ensures SameIds(RunFrom(edges, traffic, steps, iter).0, edges)
    ensures (forall i :: 0 <= i < |edges| ==> edges[i].weight > 0.0) ==>
      forall i :: 0 <= i < |edges| ==> RunFrom(edges, traffic, steps, iter).0[i].weight > 0.0
    ensures RunFrom(edges, traffic, steps, iter).1.Aborted? ==>
      var at := RunFrom(edges, traffic, steps, iter).1.iteration; iter <= at < |steps| && at % 100 == 0
    decreases |steps| - iter
  {
    if iter < |steps| {
      var next := Iterate(edges, traffic, steps[iter]);
      IterateChangesOneWeight(edges, traffic, steps[iter]);
      NextWeightPositive(edges[steps[iter].pick].weight, steps[iter].delta);
      if !(iter % 100 == 0 && AverageLoad(next).None?) {
        RunKeepsIdsAndPositiveWeights(next, traffic, steps, iter + 1);
      }
    }
  }

  /** When every edge has traffic, every edge is loaded after the first iteration and the run never aborts. */
  lemma {:induction false} RunCompletesWithFullTraffic(edges: seq<Edge>, traffic: map<string, real>, steps: seq<Step>, iter: nat)
    requires iter <= |steps| && PicksBelow(steps, |edges|)
    requires forall i :: 0 <= i < |edges| ==> edges[i].id in traffic
    ensures RunFrom(edges, traffic, steps, iter).1 == Completed
    decreases |steps| - iter
  {
    if iter < |steps| {
      var next := Iterate(edges, traffic, steps[iter]);
      IterateChangesOneWeight(edges, traffic, steps[iter]);
      IterateLoads(edges, traffic, steps[iter]);
      LoadTotalIsSum(next);
      RunCompletesWithFullTraffic(next, traffic, steps, iter + 1);
    }
  }

  /** An edge that has no traffic and no load yet makes the very first statistics throw. */
  lemma RunAbortsWithoutLoad(edges: seq<Edge>, traffic: map<string, real>, steps: seq<Step>, i: nat)
    requires 0 < |steps| && PicksBelow(steps, |edges|)
    requires i < |edges| && edges[i].id !in traffic && edges[i].load.None?
    ensures RunFrom(edges, traffic, steps, 0).1 == Aborted(0)
  {
    var next := Iterate(edges, traffic, steps[0]);
    IterateLoads(edges, traffic, steps[0]);
    LoadTotalIsSum(next);
  }
}
