/**
 The numeric conversions the host script relies on, with their C# and Unity
 semantics written out over exact reals.
 */
module UnityMath {

  /** `Mathf.CeilToInt`: the least integer not below `x`. */
  function CeilToInt(x: real): (r: int)
    ensures (r - 1) as real < x <= r as real
  {
    -((-x).Floor)
  }

  /** The C# cast `(int) x` of a float: truncation toward zero. */
  function TruncToInt(x: real): (r: int)
    ensures 0.0 <= x ==> 0 <= r && r as real <= x < r as real + 1.0
    ensures x < 0.0 ==> r <= 0 && r as real - 1.0 < x <= r as real
  {
    if 0.0 <= x then x.Floor else -((-x).Floor)
  }

  /**
   `Mathf.RoundToInt`, which is `Math.Round`: the nearest integer, and on a tie
   the even one.
   */
  function RoundToInt(x: real): (r: int)
    ensures -0.5 <= r as real - x <= 0.5
    ensures (r as real - x == 0.5 || x - r as real == 0.5) ==> r % 2 == 0
  {
    var f := x.Floor;
    var frac := x - f as real;
    if frac < 0.5 then f
    else if frac > 0.5 then f + 1
    else if f % 2 == 0 then f
    else f + 1
  }

  /** The three conversions agree with the integer itself on integral input. */
  lemma ConversionsOfIntegral(n: int)
    ensures CeilToInt(n as real) == n
    ensures TruncToInt(n as real) == n
    ensures RoundToInt(n as real) == n
  {
  }

  /** The same, for a real known to hold a whole number. */
  lemma ConversionsOfWhole(x: real, n: int)
    requires x == n as real
    ensures CeilToInt(x) == n && TruncToInt(x) == n && RoundToInt(x) == n
  {
    ConversionsOfIntegral(n);
  }

  /** Multiplying two integer-valued reals gives the real of the integers' product. */
  lemma RealOfProduct(a: real, b: real, ia: int, ib: int)
    requires a == ia as real && b == ib as real
    ensures a * b == (ia * ib) as real
  {
  }

  /** The product of three integer-valued reals is the real of the integer product. */
  lemma RealOfTripleProduct(a: real, b: real, c: real, ia: int, ib: int, ic: int)
    requires a == ia as real && b == ib as real && c == ic as real
    ensures a * b * c == (ia * ib * ic) as real
  {
    RealOfProduct(a, b, ia, ib);
    RealOfProduct(a * b, c, ia * ib, ic);
  }
}
