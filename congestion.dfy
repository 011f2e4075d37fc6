/**
 * The piecewise-linear congestion cost that `evaluateNetworkCost` charges an
 * edge for its utilisation u = load / capacity. The six segments have the
 * breakpoints and slopes of the Fortz-Thorup OSPF weight-setting cost, but the
 * last offset is 19468/3 instead of the continuous 16318/3, so the curve jumps
 * down at u = 11/10.
 */
module Congestion {

  /** Cost of one edge at utilisation `u`, branch for branch as the source writes it. */
  function EdgeCost(u: real): real
  {
    if u < 1.0 / 3.0 then u
    else if u < 2.0 / 3.0 then 3.0 * u - 2.0 / 3.0
    else if u < 9.0 / 10.0 then 10.0 * u - 16.0 / 3.0
    else if u < 1.0 then 70.0 * u - 178.0 / 3.0
    else if u < 11.0 / 10.0 then 500.0 * u - 1468.0 / 3.0
    else 5000.0 * u - 19468.0 / 3.0
  }

  /** The left end of segment `k` (segment 0 is unbounded below). */
  function Breakpoint(k: nat): real
    requires 1 <= k <= 5
  {
    match k
    case 1 => 1.0 / 3.0
    case 2 => 2.0 / 3.0
    case 3 => 9.0 / 10.0
    case 4 => 1.0
    case 5 => 11.0 / 10.0
  }

  /** Slope of segment `k`. */
  function Slope(k: nat): real
    requires k <= 5
  {
    match k
    case 0 => 1.0
    case 1 => 3.0
    case 2 => 10.0
    case 3 => 70.0
    case 4 => 500.0
    case 5 => 5000.0
  }

  /** Amount subtracted on segment `k`; the cost there is Slope(k) * u - Offset(k). */
  function Offset(k: nat): real
    requires k <= 5
  {
    match k
    case 0 => 0.0
    case 1 => 2.0 / 3.0
    case 2 => 16.0 / 3.0
    case 3 => 178.0 / 3.0
    case 4 => 1468.0 / 3.0
    case 5 => 19468.0 / 3.0
  }

  /** The line that carries segment `k`, evaluated anywhere. */
  function Line(k: nat, u: real): real
    requires k <= 5
  {
    Slope(k) * u - Offset(k)
  }

  /** Which segment `u` falls in: the number of breakpoints at or below `u`. */
  function Segment(u: real): (k: nat)
    ensures k <= 5
    ensures k >= 1 ==> Breakpoint(k) <= u
    ensures k < 5 ==> u < Breakpoint(k + 1)
  {
    if u < 1.0 / 3.0 then 0
    else if u < 2.0 / 3.0 then 1
    else if u < 9.0 / 10.0 then 2
    else if u < 1.0 then 3
    else if u < 11.0 / 10.0 then 4
    else 5
  }

  /** The cost is, at every utilisation, the line of the segment that utilisation lies in. */
  lemma EdgeCostOnSegment(u: real)
    ensures EdgeCost(u) == Line(Segment(u), u)
  {
  }

  /** Every segment rises: within one segment a larger utilisation never costs less. */
  lemma EdgeCostMonotoneWithinSegment(u: real, v: real)
    requires Segment(u) == Segment(v) && u <= v
    ensures EdgeCost(u) <= EdgeCost(v)
    ensures EdgeCost(v) - EdgeCost(u) == Slope(Segment(u)) * (v - u)
    ensures Slope(Segment(u)) > 0.0
  {
    EdgeCostOnSegment(u);
    EdgeCostOnSegment(v);
  }

  /** At 1/3, 2/3, 9/10 and 1 the segment to the left ends where the next one starts. */
  lemma EdgeCostContinuousAt(k: nat)
    requires 1 <= k <= 4
    ensures Line(k - 1, Breakpoint(k)) == Line(k, Breakpoint(k)) == EdgeCost(Breakpoint(k))
  {
  }

  /** At 11/10 the cost drops from 550 - 1468/3 (left limit) to 5500 - 19468/3, below zero. */
  lemma EdgeCostDropsAtOverload()
    ensures Line(4, Breakpoint(5)) == 550.0 - 1468.0 / 3.0
    ensures EdgeCost(Breakpoint(5)) == 5500.0 - 19468.0 / 3.0
    ensures EdgeCost(Breakpoint(5)) < 0.0 < Line(4, Breakpoint(5))
    ensures Line(4, Breakpoint(5)) - EdgeCost(Breakpoint(5)) == 1050.0
  {
  }

  /** Below 11/10 the cost is non-decreasing across segments, not just within one. */
  lemma EdgeCostMonotoneBelowOverload(u: real, v: real)
    requires u <= v < 11.0 / 10.0
    ensures EdgeCost(u) <= EdgeCost(v)
  {
  }

  /** Past 11/10 monotonicity fails: an edge just below 11/10 costs more than one at 11/10. */
  lemma EdgeCostNotMonotone()
    ensures 1.0 < 11.0 / 10.0 && EdgeCost(1.0) > EdgeCost(11.0 / 10.0)
  {
  }

  /** On [0, 11/10) the cost is non-negative and never exceeds `u` times the slope of u's segment. */
  lemma EdgeCostBounds(u: real)
    requires 0.0 <= u < 11.0 / 10.0
    ensures 0.0 <= EdgeCost(u) <= Slope(Segment(u)) * u
  {
  }
}
