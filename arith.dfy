/** Integer facts shared by the models: Euclidean division pinned down by its quotient and remainder. */
module Arith {

  /** A positive multiple of a positive number is at least that number. */
  lemma MulAtLeast(d: int, b: int)
    ensures d >= 1 && b > 0 ==> d * b >= b
  {
    if d >= 1 && b > 0 {
      assert (d - 1) * b >= 0;
    }
  }

  /** If x == q * b + m with 0 <= m < b, then q and m are the quotient and remainder of x by b. */
  lemma {:induction false} DivModUnique(x: int, q: int, m: int, b: int)
    requires b > 0 && 0 <= m < b && x == q * b + m
    ensures x / b == q && x % b == m
  {
    var d := q - x / b;
    assert x == (x / b) * b + x % b;
    assert d * b == x % b - m;
    MulAtLeast(d, b);
    MulAtLeast(-d, b);
    assert (-d) * b == -(d * b);
  }

  /** Dividing (x + b - 1) by b rounds x / b up: the result q is the least multiple count with q * b >= x. */
  lemma {:induction false} CeilDivBounds(x: int, b: int)
    requires x >= 0 && b > 0
    ensures var q := (x + b - 1) / b;
      q >= 0 && q * b >= x && q * b - x < b && (x >= 1 ==> q >= 1)
  {
    var y := x + b - 1;
    var q := y / b;
    assert y == q * b + y % b;
    MulAtLeast(-q, b);
    assert (-q) * b == -(q * b);
  }

  /** Multiplying both sides of an inequality by the same non-negative number keeps it. */
  lemma MulMonotone(c: int, a: int, b: int)
    requires c >= 0 && a <= b
    ensures c * a <= c * b
  {
    assert c * b - c * a == c * (b - a);
  }

  /** Multiplying by the same positive number keeps the order of two numbers, in both directions. */
  lemma MulOrder(r: int, q: int, g: int)
    requires g > 0
    ensures r <= q <==> r * g <= q * g
  {
    MulAtLeast(q - r, g);
    MulAtLeast(r - q, g);
    assert (q - r) * g == q * g - r * g;
  }
}
