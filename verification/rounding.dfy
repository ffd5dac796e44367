/** Rounding to the nearest integer, halves to the even neighbour. */
module Rounding {

  function Round(x: real): (n: int)
    ensures -0.5 <= x - n as real <= 0.5
  {
    var below := x.Floor;
    var rest := x - below as real;
    if rest < 0.5 || (rest == 0.5 && below % 2 == 0) then below else below + 1
  }

  lemma RoundIsMonotone(x: real, y: real)
    requires x <= y
    ensures Round(x) <= Round(y)
  {
  }

  lemma RoundOfInteger(n: int)
    ensures Round(n as real) == n
  {
  }

  /** Rounding never crosses an integer. */
  lemma RoundKeepsIntegerBounds(x: real, low: int, high: int)
    ensures low as real <= x ==> low <= Round(x)
    ensures x <= high as real ==> Round(x) <= high
  {
    RoundOfInteger(low);
    RoundOfInteger(high);
    if low as real <= x {
      RoundIsMonotone(low as real, x);
    }
    if x <= high as real {
      RoundIsMonotone(x, high as real);
    }
  }

  // ------------------------------------------------------------------ Quotients

  /** The whole number nearest to a quotient, without dividing: an exact half goes to the even neighbour. */
  predicate IsNearest(a: int, m: int, n: int) {
    var off := 2 * a - 2 * n * m;
    -m <= off <= m && (off == m || off == -m ==> n % 2 == 0)
  }

  lemma Scaled(x: real, y: real, m: real)
    requires m > 0.0
    ensures x <= y <==> x * m <= y * m
    ensures x == y <==> x * m == y * m
  {
  }

  lemma NearByHalf(x: real, n: int)
    ensures n == Round(x) <==>
      -0.5 <= x - n as real <= 0.5 && (x - n as real == 0.5 || x - n as real == -0.5 ==> n % 2 == 0)
  {
  }

  lemma HalfBounds(d: real, m: int, off: int)
    requires m > 0 && 2.0 * (d * m as real) == off as real
    ensures d <= 0.5 <==> off <= m
    ensures -0.5 <= d <==> -m <= off
    ensures d == 0.5 <==> off == m
    ensures d == -0.5 <==> off == -m
  {
    Scaled(d, 0.5, m as real);
    Scaled(-0.5, d, m as real);
  }

  /** Rounding a quotient gives exactly the nearest whole number. */
  lemma RoundIsNearest(a: int, m: int, n: int)
    requires m > 0
    ensures n == Round(a as real / m as real) <==> IsNearest(a, m, n)
  {
    hide Round;
    var d := a as real / m as real - n as real;
    Quotient(a, m, n);
    HalfBounds(d, m, 2 * a - 2 * n * m);
    NearByHalf(a as real / m as real, n);
  }

  lemma Quotient(a: int, m: int, n: int)
    requires m > 0
    ensures 2.0 * ((a as real / m as real - n as real) * m as real) == (2 * a - 2 * n * m) as real
  {
    var x, k := a as real / m as real, m as real;
    assert x * k == a as real;
    assert (x - n as real) * k == x * k - n as real * k;
    assert n as real * k == (n * m) as real;
  }
}
