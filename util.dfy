/** Small value types and arithmetic helpers shared by both visualizers. */
module Util {

  /** An optional value; `None` stands for a Java null or an unset sentinel. */
  datatype Option<T> = None | Some(value: T)

  /** The three fill colours the visualizers paint an edge with. */
  datatype Colour = Green | Orange | Red

  /** Position of a colour on the green-orange-red scale. */
  function Rank(c: Colour): nat
  {
    match c
    case Green => 0
    case Orange => 1
    case Red => 2
  }

  /** `Math.min` on reals. */
  function Min(a: real, b: real): (m: real)
    ensures m <= a && m <= b
    ensures m == a || m == b
  {
    if a <= b then a else b
  }

  /** The least integer not below `x`. */
  function Ceil(x: real): (n: int)
    ensures x <= n as real < x + 1.0
  {
    if x.Floor as real == x then x.Floor else x.Floor + 1
  }

  /** Shifting the argument by one shifts the ceiling by one. */
  lemma CeilShift(x: real)
    ensures Ceil(x - 1.0) == Ceil(x) - 1
  {
  }

  /** Sum of a sequence of reals, first element first. */
  function Sum(s: seq<real>): real
  {
    if s == [] then 0.0 else s[0] + Sum(s[1..])
  }

  /** Appending one element adds it to the sum. */
  lemma {:induction false} SumAppend(s: seq<real>, x: real)
    ensures Sum(s + [x]) == Sum(s) + x
  {
    if s == [] {
      assert s + [x] == [x];
    } else {
      assert (s + [x])[1..] == s[1..] + [x];
      SumAppend(s[1..], x);
    }
  }

  /** Java's `(int)` / `Double.intValue()` conversion: truncation toward zero. */
  function IntValue(x: real): int
  {
    if x >= 0.0 then x.Floor else -((-x).Floor)
  }

  /** The conversion drops the fraction, toward zero: an integer comes back unchanged. */
  lemma IntValueTruncates(x: real)
    ensures x >= 0.0 ==> IntValue(x) == x.Floor && IntValue(x) as real <= x
    ensures x < 0.0 ==> x <= IntValue(x) as real
    ensures -1.0 < x - IntValue(x) as real < 1.0
    ensures x == x.Floor as real ==> IntValue(x) == x.Floor
  {
  }

  /** Multiplying both sides by a positive factor keeps a strict comparison. */
  lemma ScaleCompare(x: real, y: real, c: real)
    requires c > 0.0
    ensures x > y <==> x * c > y * c
  {
    if x > y {
      assert (x - y) * c > 0.0;
    } else {
      assert (y - x) * c >= 0.0;
    }
  }
}
