/** Products of reals as single terms: a proof that hides `Times` reasons with the laws below and stays linear. */
module Reals {

  function Times(x: real, y: real): real {
    x * y
  }

  lemma TimesCommutes(x: real, y: real)
    ensures Times(x, y) == Times(y, x)
  {
  }

  lemma TimesOverSum(x: real, y: real, z: real)
    ensures Times(x, y + z) == Times(x, y) + Times(x, z)
    ensures Times(x, y - z) == Times(x, y) - Times(x, z)
  {
  }

  lemma SumOverTimes(x: real, y: real, z: real)
    ensures Times(x + y, z) == Times(x, z) + Times(y, z)
    ensures Times(x - y, z) == Times(x, z) - Times(y, z)
  {
  }

  lemma TimesAssociates(x: real, y: real, z: real)
    ensures Times(x, Times(y, z)) == Times(Times(x, y), z)
  {
  }

  lemma TimesUnit(x: real)
    ensures Times(1.0, x) == x && Times(x, 1.0) == x
    ensures Times(0.0, x) == 0.0 && Times(x, 0.0) == 0.0
  {
  }

  lemma TimesNonnegative(x: real, y: real)
    requires x >= 0.0 && y >= 0.0
    ensures Times(x, y) >= 0.0
  {
  }

  lemma TimesMonotone(x: real, y: real, z: real)
    requires x >= 0.0 && y <= z
    ensures Times(x, y) <= Times(x, z)
    ensures Times(y, x) <= Times(z, x)
  {
  }

  lemma TimesPositive(x: real, y: real)
    requires x > 0.0 && y > 0.0
    ensures Times(x, y) > 0.0
  {
  }

  function Over(x: real, y: real): real
    requires y != 0.0
  {
    x / y
  }

  lemma OverTimes(x: real, y: real)
    requires y != 0.0
    ensures Times(Over(x, y), y) == x
  {
  }

  lemma TimesOver(x: real, y: real)
    requires y != 0.0
    ensures Over(Times(x, y), y) == x
  {
  }

  lemma OverSum(x: real, y: real, z: real)
    requires z != 0.0
    ensures Over(x + y, z) == Over(x, z) + Over(y, z)
  {
  }

  lemma OverMonotone(x: real, y: real, z: real)
    requires z > 0.0 && x <= y
    ensures Over(x, z) <= Over(y, z)
  {
  }

  lemma OverUnit(x: real)
    requires x != 0.0
    ensures Over(x, x) == 1.0 && Over(0.0, x) == 0.0
  {
  }

  lemma OverNegated(x: real, y: real)
    requires y != 0.0
    ensures Over(-x, y) == -Over(x, y)
  {
    OverSum(x, -x, y);
    OverUnit(y);
  }

  /** Two squares of nonnegative numbers compare as the numbers do. */
  lemma SquareOrder(x: real, y: real)
    requires x >= 0.0 && y >= 0.0
    ensures Times(x, x) <= Times(y, y) <==> x <= y
  {
    if x < y {
      TimesMonotone(x, x, y);
      TimesPositive(y, y - x);
      TimesOverSum(y, y, x);
      TimesCommutes(x, y);
    } else if y < x {
      TimesMonotone(y, y, x);
      TimesPositive(x, x - y);
      TimesOverSum(x, x, y);
      TimesCommutes(x, y);
    }
  }

  function Power(x: real, n: nat): real {
    if n == 0 then 1.0 else Times(x, Power(x, n - 1))
  }
}
