/**
 * The capacity-bounded flow simulation of `calculateAndPrintBpsDijkstra` and
 * `calculateWithCustomWeights`: the data is pushed along a fixed path in
 * rounds, each round sending the smaller of what remains and the path's
 * bottleneck capacity and overwriting the load of every path edge with it.
 */
module Flow {
  import opened Util
  import opened Network

  /** Capacity the flow reads for an edge: a missing entry is 0.0. */
  function FlowCapacity(edges: seq<Edge>, capacities: map<string, real>, i: nat): real
    requires i < |edges|
  {
    CapacityOr(capacities, edges[i].id, 0.0)
  }

  /**
   * The running minimum of the loop over the path's edges: `None` is the
   * `Double.MAX_VALUE` it starts from, kept when the path is empty; a smaller
   * capacity replaces the minimum only when it is strictly smaller.
   */
  function Bottleneck(edges: seq<Edge>, capacities: map<string, real>, path: seq<nat>): Option<real>
    requires forall k :: 0 <= k < |path| ==> path[k] < |edges|
  {
    if |path| == 0 then None
    else
      var before := Bottleneck(edges, capacities, path[..|path| - 1]);
      var c := FlowCapacity(edges, capacities, path[|path| - 1]);
      if before.None? || c < before.value then Some(c) else before
  }

  /** The bottleneck is the minimum capacity over the path: one of them and no larger than any. */
  lemma {:induction false} BottleneckIsMinimum(edges: seq<Edge>, capacities: map<string, real>, path: seq<nat>)
    requires forall k :: 0 <= k < |path| ==> path[k] < |edges|
    ensures Bottleneck(edges, capacities, path).None? <==> |path| == 0
    ensures Bottleneck(edges, capacities, path).Some? ==>
      && (exists k :: 0 <= k < |path| && Bottleneck(edges, capacities, path).value == FlowCapacity(edges, capacities, path[k]))
      && (forall k :: 0 <= k < |path| ==> Bottleneck(edges, capacities, path).value <= FlowCapacity(edges, capacities, path[k]))
  {
    if |path| > 0 {
      var init := path[..|path| - 1];
      BottleneckIsMinimum(edges, capacities, init);
      assert forall k :: 0 <= k < |init| ==> init[k] == path[k];
      var last := |path| - 1;
      var b := Bottleneck(edges, capacities, path).value;
      if b == FlowCapacity(edges, capacities, path[last]) {
      } else {
        var k :| 0 <= k < |init| && Bottleneck(edges, capacities, init).value == FlowCapacity(edges, capacities, init[k]);
        assert b == FlowCapacity(edges, capacities, path[k]);
      }
    }
  }

  /** With no negative capacity stored, the bottleneck is not negative either. */
  lemma BottleneckNonNegative(edges: seq<Edge>, capacities: map<string, real>, path: seq<nat>)
    requires forall k :: 0 <= k < |path| ==> path[k] < |edges|
    requires forall id :: id in capacities ==> capacities[id] >= 0.0
    ensures Bottleneck(edges, capacities, path).Some? ==> Bottleneck(edges, capacities, path).value >= 0.0
  {
    BottleneckIsMinimum(edges, capacities, path);
  }

  /** The bottleneck reads only the ids of the path's edges, so rewriting loads leaves it as it was. */
  lemma {:induction false} BottleneckReadsIds(a: seq<Edge>, b: seq<Edge>, capacities: map<string, real>, path: seq<nat>)
    requires SameIds(a, b)
    requires forall k :: 0 <= k < |path| ==> path[k] < |a|
    ensures Bottleneck(a, capacities, path) == Bottleneck(b, capacities, path)
  {
    if |path| > 0 {
      BottleneckReadsIds(a, b, capacities, path[..|path| - 1]);
    }
  }

  /** `Math.min(totalData, minCapacity)`: what one round sends. */
  function RoundAmount(remaining: real, bottleneck: Option<real>): real
  {
    match bottleneck
    case None => remaining
    case Some(b) => Min(remaining, b)
  }

  /** The loop makes progress: a path that is empty or whose every capacity is positive. */
  predicate Progresses(bottleneck: Option<real>)
  {
    bottleneck.Some? ==> bottleneck.value > 0.0
  }

  /** How many rounds are left while `remaining` data is still to send. */
  function RoundsLeft(remaining: real, bottleneck: Option<real>): nat
    requires Progresses(bottleneck)
  {
    if remaining <= 0.0 then 0
    else match bottleneck
      case None => 1
      case Some(b) => CeilOfPositive(remaining, b)
  }

  function CeilOfPositive(x: real, b: real): (n: nat)
    requires x > 0.0 && b > 0.0
    ensures n == Ceil(x / b)
  {
    assert x / b > 0.0;
    Ceil(x / b)
  }

  /**
   * The amounts the loop sends, round by round, starting with `remaining`
   * still to send; the loop stops once nothing remains.
   */
  function Rounds(remaining: real, bottleneck: Option<real>): seq<real>
    requires Progresses(bottleneck)
    decreases RoundsLeft(remaining, bottleneck)
  {
    if remaining <= 0.0 then []
    else
      var sent := RoundAmount(remaining, bottleneck);
      RoundsLeftDrops(remaining, bottleneck);
      [sent] + Rounds(remaining - sent, bottleneck)
  }

  lemma RoundsLeftDrops(remaining: real, bottleneck: Option<real>)
    requires Progresses(bottleneck) && remaining > 0.0
    ensures RoundsLeft(remaining - RoundAmount(remaining, bottleneck), bottleneck) == RoundsLeft(remaining, bottleneck) - 1
  {
    if bottleneck.Some? {
      var b := bottleneck.value;
      if remaining > b {
        DivShift(remaining, b);
        CeilShift(remaining / b);
      } else {
        assert remaining / b <= 1.0;
      }
    }
  }

  /** One unfolding of the rounds: the first amount, then the rounds of what is left, one fewer. */
  lemma RoundsStep(remaining: real, bottleneck: Option<real>)
    requires Progresses(bottleneck) && remaining > 0.0
    ensures var sent := RoundAmount(remaining, bottleneck);
      && Rounds(remaining, bottleneck) == [sent] + Rounds(remaining - sent, bottleneck)
      && RoundsLeft(remaining - sent, bottleneck) == RoundsLeft(remaining, bottleneck) - 1
  {
    RoundsLeftDrops(remaining, bottleneck);
  }

  lemma DivShift(x: real, b: real)
    requires b > 0.0
    ensures (x - b) / b == x / b - 1.0
  {
    assert b / b == 1.0;
    assert (x - b) / b == x / b - b / b;
  }

  /** Everything is sent: the rounds add up to the data volume, and there are none for a non-positive volume. */
  lemma {:induction false} RoundsDeliverAll(remaining: real, bottleneck: Option<real>)
    requires Progresses(bottleneck)
    ensures remaining <= 0.0 <==> Rounds(remaining, bottleneck) == []
    ensures remaining > 0.0 ==> Sum(Rounds(remaining, bottleneck)) == remaining
    decreases RoundsLeft(remaining, bottleneck)
  {
    if remaining > 0.0 {
      var sent := RoundAmount(remaining, bottleneck);
      RoundsLeftDrops(remaining, bottleneck);
      RoundsDeliverAll(remaining - sent, bottleneck);
    }
  }

  /** With a positive bottleneck B the loop runs ceil(data / B) rounds; on the empty path it runs one. */
  lemma {:induction false} RoundsCount(remaining: real, bottleneck: Option<real>)
    requires Progresses(bottleneck)
    ensures |Rounds(remaining, bottleneck)| == RoundsLeft(remaining, bottleneck)
    ensures remaining > 0.0 && bottleneck.Some? ==> |Rounds(remaining, bottleneck)| == Ceil(remaining / bottleneck.value)
    ensures remaining > 0.0 && bottleneck.None? ==> Rounds(remaining, bottleneck) == [remaining]
    decreases RoundsLeft(remaining, bottleneck)
  {
    if remaining > 0.0 {
      var sent := RoundAmount(remaining, bottleneck);
      RoundsLeftDrops(remaining, bottleneck);
      RoundsCount(remaining - sent, bottleneck);
    }
  }

  /** Every round but the last sends exactly the bottleneck; the last sends a positive amount no larger. */
  lemma {:induction false} RoundsAreFull(remaining: real, b: real)
    requires b > 0.0
    ensures forall k :: 0 <= k < |Rounds(remaining, Some(b))| ==> 0.0 < Rounds(remaining, Some(b))[k] <= b
    ensures forall k :: 0 <= k < |Rounds(remaining, Some(b))| - 1 ==> Rounds(remaining, Some(b))[k] == b
    decreases RoundsLeft(remaining, Some(b))
  {
    if remaining > 0.0 {
      var sent := RoundAmount(remaining, Some(b));
      RoundsLeftDrops(remaining, Some(b));
      RoundsAreFull(remaining - sent, b);
      var r := Rounds(remaining, Some(b));
      var rest := Rounds(remaining - sent, Some(b));
      assert r == [sent] + rest;
      if rest != [] {
        RoundsDeliverAll(remaining - sent, Some(b));
        assert sent == b;
      }
      assert forall k :: 1 <= k < |r| ==> r[k] == rest[k - 1];
    }
  }

  /** Data still to send after `n` rounds of the loop body, whether or not it makes progress. */
  function RemainingAfter(remaining: real, bottleneck: Option<real>, n: nat): real
    decreases n
  {
    if n == 0 then remaining
    else RemainingAfter(remaining - RoundAmount(remaining, bottleneck), bottleneck, n - 1)
  }

  /**
   * A zero (or negative) bottleneck never lets positive data drain: after any
   * number of rounds at least the starting volume remains, so the source's
   * `while (totalData > 0)` never exits.
   */
  lemma {:induction false} StalledFlowNeverEnds(remaining: real, b: real, n: nat)
    requires b <= 0.0 && remaining > 0.0
    ensures RemainingAfter(remaining, Some(b), n) >= remaining
    decreases n
  {
    if n > 0 {
      StalledFlowNeverEnds(remaining - RoundAmount(remaining, Some(b)), b, n - 1);
    }
  }

  /** Every path edge's load overwritten with `v`; every other edge as it was. */
  function SetLoads(edges: seq<Edge>, path: seq<nat>, v: real): (r: seq<Edge>)
    ensures |r| == |edges|
  {
    seq(|edges|, i requires 0 <= i < |edges| => if i in path then edges[i].(load := v) else edges[i])
  }

  /** Writing loads keeps every id, and a non-negative amount keeps every load non-negative. */
  lemma SetLoadsKeepsIds(edges: seq<Edge>, path: seq<nat>, v: real)
    ensures SameIds(SetLoads(edges, path, v), edges)
    ensures LoadsNonNegative(edges) && v >= 0.0 ==> LoadsNonNegative(SetLoads(edges, path, v))
  {
  }

  /** A later round's writes replace an earlier round's on the same path. */
  lemma SetLoadsOverwrites(edges: seq<Edge>, path: seq<nat>, v: real, w: real)
    ensures SetLoads(SetLoads(edges, path, v), path, w) == SetLoads(edges, path, w)
  {
  }

  /** The edges as the simulation leaves them after sending `rounds`: the last round's amount on the path. */
  function LoadsAfter(edges: seq<Edge>, path: seq<nat>, rounds: seq<real>): seq<Edge>
  {
    if rounds == [] then edges else SetLoads(edges, path, rounds[|rounds| - 1])
  }

  /** Writing one more round's amount gives the edges after that round. */
  lemma LoadsAfterRound(edges: seq<Edge>, path: seq<nat>, rounds: seq<real>, v: real)
    ensures SetLoads(LoadsAfter(edges, path, rounds), path, v) == LoadsAfter(edges, path, rounds + [v])
  {
    if rounds != [] {
      SetLoadsOverwrites(edges, path, rounds[|rounds| - 1], v);
    }
  }

  /**
   * The bottleneck logic keeps a finished flow within every path edge's
   * capacity, and with positive data every path edge has a stored capacity.
   */
  lemma FlowWithinCapacity(edges: seq<Edge>, capacities: map<string, real>, path: seq<nat>, data: real)
    requires forall k :: 0 <= k < |path| ==> path[k] < |edges|
    requires Progresses(Bottleneck(edges, capacities, path))
    ensures forall k :: 0 <= k < |path| ==>
      var after := LoadsAfter(edges, path, Rounds(data, Bottleneck(edges, capacities, path)));
      after[path[k]].load <= FlowCapacity(edges, capacities, path[k]) || data <= 0.0
    ensures data > 0.0 ==> forall k :: 0 <= k < |path| ==> edges[path[k]].id in capacities
  {
    var b := Bottleneck(edges, capacities, path);
    BottleneckIsMinimum(edges, capacities, path);
    RoundsDeliverAll(data, b);
    if b.Some? {
      RoundsAreFull(data, b.value);
    }
    forall k | 0 <= k < |path| && data > 0.0
      ensures edges[path[k]].id in capacities
    {
      assert b.Some?;
      assert FlowCapacity(edges, capacities, path[k]) > 0.0;
    }
  }
}
