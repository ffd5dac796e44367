/** The decayed score: points sorted hardest first, the k-th worth its value times decay^k. */
module Scoring {
  import opened Reals
  import opened Rounding
  import opened Sorting

  // -------------------------------------------------------- The weighted sum

  ghost predicate IsDecay(d: real) {
    0.0 < d < 1.0
  }

  /** What a value is worth at a rank. */
  function AtRank(value: nat, d: real, rank: nat): real {
    Times(value as real, Power(d, rank))
  }

  /** The sum over a listing whose first value sits at some rank. */
  function Terms(points: seq<nat>, d: real, rank: nat): real {
    if points == [] then 0.0 else AtRank(points[0], d, rank) + Terms(points[1..], d, rank + 1)
  }

  predicate Harder(x: nat, y: nat) {
    x >= y
  }

  function HardestFirst(points: seq<nat>): seq<nat> {
    Sort<nat>(Harder, points)
  }

  function WeightedScore(points: seq<nat>, d: real): real {
    Terms(HardestFirst(points), d, 0)
  }

  function MarginalGain(points: seq<nat>, value: nat, d: real): real {
    WeightedScore(points + [value], d) - WeightedScore(points, d)
  }

  // ------------------------------------------------- The same sum, from the front

  /** The first value in full, the rest decayed once more. */
  function Decayed(points: seq<nat>, d: real): real {
    if points == [] then 0.0 else points[0] as real + Times(d, Decayed(points[1..], d))
  }

  lemma DecayedOfCons(x: nat, s: seq<nat>, d: real)
    ensures Decayed([x] + s, d) == x as real + Times(d, Decayed(s, d))
  {
    assert ([x] + s)[1..] == s;
  }

  lemma ConsMonotone(x: nat, y: nat, s: seq<nat>, t: seq<nat>, d: real)
    requires IsDecay(d)
    requires x <= y && Decayed(s, d) <= Decayed(t, d)
    ensures Decayed([x] + s, d) <= Decayed([y] + t, d)
  {
    hide Times, Decayed;
    DecayedOfCons(x, s, d);
    DecayedOfCons(y, t, d);
    TimesMonotone(d, Decayed(s, d), Decayed(t, d));
  }

  lemma {:induction false} DecayedIsNonnegative(points: seq<nat>, d: real)
    requires IsDecay(d)
    ensures Decayed(points, d) >= 0.0
  {
    hide Times;
    if points != [] {
      DecayedIsNonnegative(points[1..], d);
      TimesNonnegative(d, Decayed(points[1..], d));
    }
  }

  lemma {:induction false} TermsAreDecayed(points: seq<nat>, d: real, rank: nat)
    ensures Terms(points, d, rank) == Times(Power(d, rank), Decayed(points, d))
  {
    hide Times;
    if points == [] {
      TimesUnit(Power(d, rank));
    } else {
      var x, p, rest := points[0] as real, Power(d, rank), Decayed(points[1..], d);
      TermsAreDecayed(points[1..], d, rank + 1);
      assert Power(d, rank + 1) == Times(d, p);
      TimesOverSum(p, x, Times(d, rest));
      TimesCommutes(p, x);
      TimesCommutes(d, p);
      TimesAssociates(p, d, rest);
    }
  }

  lemma AsGivenIsDecayed(points: seq<nat>, d: real)
    ensures Terms(points, d, 0) == Decayed(points, d)
  {
    TermsAreDecayed(points, d, 0);
    TimesUnit(Decayed(points, d));
  }

  lemma ScoreIsDecayed(points: seq<nat>, d: real)
    ensures WeightedScore(points, d) == Decayed(HardestFirst(points), d)
  {
    AsGivenIsDecayed(HardestFirst(points), d);
  }

  // ----------------------------------------------- Sorting is the best order

  /** A larger value belongs in front of a smaller one. */
  lemma LargerInFront(x: nat, y: nat, t: seq<nat>, placed: seq<nat>, d: real)
    requires IsDecay(d) && x <= y
    requires Decayed([x] + t, d) <= Decayed(placed, d)
    ensures Decayed([x] + ([y] + t), d) <= Decayed([y] + placed, d)
  {
    hide Times, Decayed;
    var rest := Decayed(t, d);
    DecayedOfCons(x, [y] + t, d);
    DecayedOfCons(y, t, d);
    DecayedOfCons(x, t, d);
    DecayedOfCons(y, placed, d);
    TimesOverSum(d, y as real, Times(d, rest));
    TimesOverSum(d, x as real, Times(d, rest));
    TimesMonotone(d, x as real + Times(d, rest), Decayed(placed, d));
    TimesMonotone(1.0 - d, x as real, y as real);
    SumOverTimes(1.0, d, x as real);
    SumOverTimes(1.0, d, y as real);
    TimesUnit(x as real);
    TimesUnit(y as real);
  }

  /** Putting a value in its sorted place is worth at least as much as putting it first. */
  lemma {:induction false} InsertBeatsFront(x: nat, s: seq<nat>, d: real)
    requires IsDecay(d)
    ensures Decayed([x] + s, d) <= Decayed(Insert<nat>(Harder, x, s), d)
  {
    hide Decayed;
    if s != [] && x < s[0] {
      InsertBeatsFront(x, s[1..], d);
      LargerInFront(x, s[0], s[1..], Insert<nat>(Harder, x, s[1..]), d);
      assert s == [s[0]] + s[1..];
    }
  }

  lemma {:induction false} SortBeatsAsGiven(points: seq<nat>, d: real)
    requires IsDecay(d)
    ensures Decayed(points, d) <= Decayed(HardestFirst(points), d)
  {
    hide Decayed, IsDecay;
    if points != [] {
      var rest := HardestFirst(points[1..]);
      SortBeatsAsGiven(points[1..], d);
      ConsMonotone(points[0], points[0], points[1..], rest, d);
      InsertBeatsFront(points[0], rest, d);
      assert points == [points[0]] + points[1..];
    }
  }

  lemma HarderIsAnOrder()
    ensures TotalPreorder<nat>(Harder) && forall s :: Separates<nat>(Harder, s)
  {
  }

  lemma SortIgnoresOrder(points: seq<nat>, others: seq<nat>)
    requires multiset(points) == multiset(others)
    ensures HardestFirst(points) == HardestFirst(others)
  {
    HarderIsAnOrder();
    SortIsSorted<nat>(Harder, points);
    SortIsSorted<nat>(Harder, others);
    SortKeepsElements<nat>(Harder, points);
    SortKeepsElements<nat>(Harder, others);
    SortedIsUnique<nat>(Harder, HardestFirst(points), HardestFirst(others));
  }

  /** The score does not depend on the order of its input, and no other order of the same points scores higher. */
  lemma ScoreIsTheBestOrder(points: seq<nat>, arranged: seq<nat>, d: real)
    requires IsDecay(d)
    requires multiset(points) == multiset(arranged)
    ensures WeightedScore(arranged, d) == WeightedScore(points, d)
    ensures Terms(arranged, d, 0) <= WeightedScore(points, d)
  {
    SortIgnoresOrder(points, arranged);
    AsGivenIsDecayed(arranged, d);
    hide HardestFirst, Terms;
    SortBeatsAsGiven(arranged, d);
    ScoreIsDecayed(points, d);
  }

  /** The listing the score sums: the same values, hardest first. */
  lemma Listing(points: seq<nat>, d: real) returns (sorted: seq<nat>)
    ensures sorted == HardestFirst(points)
    ensures multiset(sorted) == multiset(points) && |sorted| == |points|
    ensures Sorted<nat>(Harder, sorted)
    ensures forall most :: AtMost(points, most) ==> AtMost(sorted, most)
    ensures WeightedScore(points, d) == Decayed(sorted, d)
  {
    sorted := HardestFirst(points);
    HarderIsAnOrder();
    SortIsSorted<nat>(Harder, points);
    SortKeepsElements<nat>(Harder, points);
    ScoreIsDecayed(points, d);
    forall most, i | AtMost(points, most) && 0 <= i < |sorted| ensures sorted[i] <= most {
      assert sorted[i] in multiset(points);
    }
  }

  // ---------------------------------------------------------------- Ceiling

  predicate AtMost(points: seq<nat>, most: nat) {
    forall i | 0 <= i < |points| :: points[i] <= most
  }

  lemma CeilingStep(d: real, v: real, m: real, tail: real, p: real)
    requires IsDecay(d) && v <= m
    requires Times(1.0 - d, tail) <= Times(m, 1.0 - p)
    ensures Times(1.0 - d, v + Times(d, tail)) <= Times(m, 1.0 - Times(d, p))
  {
    hide Times;
    TimesOverSum(1.0 - d, v, Times(d, tail));
    TimesAssociates(1.0 - d, d, tail);
    TimesCommutes(1.0 - d, d);
    TimesAssociates(d, 1.0 - d, tail);
    TimesMonotone(d, Times(1.0 - d, tail), Times(m, 1.0 - p));
    TimesMonotone(1.0 - d, v, m);
    SumOverTimes(1.0, d, m);
    TimesUnit(m);
    TimesCommutes(m, 1.0 - p);
    SumOverTimes(1.0, p, m);
    TimesOverSum(d, m, Times(p, m));
    TimesAssociates(d, p, m);
    TimesCommutes(m, 1.0 - Times(d, p));
    SumOverTimes(1.0, Times(d, p), m);
  }

  lemma {:induction false} DecayedCeiling(points: seq<nat>, d: real, most: nat)
    requires IsDecay(d) && AtMost(points, most)
    ensures Times(1.0 - d, Decayed(points, d)) <= Times(most as real, 1.0 - Power(d, |points|))
  {
    hide Times;
    if points == [] {
      TimesUnit(1.0 - d);
      TimesUnit(most as real);
    } else {
      var rest := points[1..];
      DecayedCeiling(rest, d, most);
      CeilingStep(d, points[0] as real, most as real, Decayed(rest, d), Power(d, |rest|));
    }
  }

  /** Grinding one difficulty has a ceiling: n solves worth at most `most` each score at most
      most * (1 - d^n) / (1 - d). */
  lemma ScoreHasACeiling(points: seq<nat>, d: real, most: nat)
    requires IsDecay(d) && AtMost(points, most)
    ensures Times(1.0 - d, WeightedScore(points, d)) <= Times(most as real, 1.0 - Power(d, |points|))
  {
    hide *;
    var sorted := Listing(points, d);
    DecayedCeiling(sorted, d, most);
  }

  // ---------------------------------------------------------- One more solve

  /** A value put in front of values no larger than it. */
  lemma FrontCase(v: nat, s: seq<nat>, d: real)
    requires IsDecay(d) && AtMost(s, v)
    ensures Decayed(s, d) + AtRank(v, d, |s|) <= Decayed([v] + s, d) <= Decayed(s, d) + v as real
  {
    hide Times, Decayed, Power;
    var rest, p := Decayed(s, d), Power(d, |s|);
    DecayedOfCons(v, s, d);
    DecayedIsNonnegative(s, d);
    DecayedCeiling(s, d, v);
    SumOverTimes(1.0, d, rest);
    TimesUnit(rest);
    TimesNonnegative(1.0 - d, rest);
    TimesOverSum(v as real, 1.0, p);
    TimesUnit(v as real);
  }

  /** A value put somewhere behind the first. */
  lemma InnerCase(x: nat, v: nat, t: seq<nat>, placed: seq<nat>, d: real)
    requires IsDecay(d)
    requires Decayed(t, d) + AtRank(v, d, |t|) <= Decayed(placed, d) <= Decayed(t, d) + v as real
    ensures Decayed([x] + t, d) + AtRank(v, d, |t| + 1) <= Decayed([x] + placed, d) <= Decayed([x] + t, d) + v as real
  {
    hide Times, Decayed;
    var value, p, before, after := v as real, Power(d, |t|), Decayed(t, d), Decayed(placed, d);
    DecayedOfCons(x, t, d);
    DecayedOfCons(x, placed, d);
    TimesMonotone(d, before + Times(value, p), after);
    TimesMonotone(d, after, before + value);
    TimesOverSum(d, before, Times(value, p));
    TimesOverSum(d, before, value);
    TimesMonotone(value, d, 1.0);
    TimesUnit(value);
    TimesAssociates(value, d, p);
    TimesCommutes(value, d);
    TimesAssociates(d, value, p);
  }

  lemma {:induction false} InsertGain(v: nat, s: seq<nat>, d: real)
    requires IsDecay(d) && Sorted<nat>(Harder, s)
    ensures Decayed(s, d) + AtRank(v, d, |s|) <= Decayed(Insert<nat>(Harder, v, s), d) <= Decayed(s, d) + v as real
  {
    hide Decayed, AtRank;
    if s == [] || v >= s[0] {
      assert AtMost(s, v) by {
        assert forall i | 0 < i < |s| :: Harder(s[0], s[i]);
      }
      FrontCase(v, s, d);
    } else {
      InsertGain(v, s[1..], d);
      InnerCase(s[0], v, s[1..], Insert<nat>(Harder, v, s[1..]), d);
      assert s == [s[0]] + s[1..];
    }
  }

  lemma ScoreOfOneMore(points: seq<nat>, v: nat, d: real)
    ensures WeightedScore(points + [v], d) == Decayed(Insert<nat>(Harder, v, HardestFirst(points)), d)
  {
    hide Decayed, Insert, WeightedScore;
    SortIgnoresOrder(points + [v], [v] + points);
    assert ([v] + points)[1..] == points;
    ScoreIsDecayed(points + [v], d);
  }

  /** Solving one more problem on top of n never lowers the score: a solve worth v adds at least v * d^n, at most v. */
  lemma OneMoreSolve(points: seq<nat>, v: nat, d: real)
    requires IsDecay(d)
    ensures AtRank(v, d, |points|) <= MarginalGain(points, v, d) <= v as real
    ensures v > 0 ==> MarginalGain(points, v, d) > 0.0
  {
    PowerIsPositive(d, |points|);
    if v > 0 {
      TimesPositive(v as real, Power(d, |points|));
    }
    hide Times, Sort, Insert, Decayed, Power, WeightedScore, HardestFirst;
    ScoreOfOneMore(points, v, d);
    var s := Listing(points, d);
    InsertGain(v, s, d);
  }

  lemma {:induction false} PowerIsPositive(d: real, n: nat)
    requires IsDecay(d)
    ensures Power(d, n) > 0.0
  {
    hide Times;
    if n > 0 {
      PowerIsPositive(d, n - 1);
      TimesPositive(d, Power(d, n - 1));
    }
  }

  /** Raising values in place and adding more at the end raises the decayed sum. */
  lemma {:induction false} DecayedMonotone(low: seq<nat>, high: seq<nat>, d: real)
    requires IsDecay(d)
    requires |low| <= |high| && forall i | 0 <= i < |low| :: low[i] <= high[i]
    ensures Decayed(low, d) <= Decayed(high, d)
  {
    if low == [] {
      DecayedIsNonnegative(high, d);
    } else {
      DecayedMonotone(low[1..], high[1..], d);
      ConsMonotone(low[0], high[0], low[1..], high[1..], d);
      assert low == [low[0]] + low[1..] && high == [high[0]] + high[1..];
    }
  }

  // ------------------------------------------------------------------ The exact sum

  lemma {:induction false} TermsOneMore(points: seq<nat>, v: nat, d: real, rank: nat)
    ensures Terms(points + [v], d, rank) == Terms(points, d, rank) + AtRank(v, d, rank + |points|)
  {
    hide AtRank;
    if points == [] {
      assert ([] + [v])[1..] == [];
    } else {
      assert (points + [v])[1..] == points[1..] + [v];
      TermsOneMore(points[1..], v, d, rank + 1);
    }
  }

  /** A value no larger than the n there are adds exactly v * d^n; with nothing scored the score is nothing. So the
      score of any points is the hardest in full, the next decayed once, and so on. */
  lemma EasiestCountsLeast(points: seq<nat>, v: nat, d: real)
    requires forall i | 0 <= i < |points| :: v <= points[i]
    ensures WeightedScore([], d) == 0.0
    ensures WeightedScore(points + [v], d) == WeightedScore(points, d) + v as real * Power(d, |points|)
  {
    hide Terms, Power, Times, HardestFirst;
    NothingScored(d);
    EasiestIsLast(points, v);
    var s := Listing(points, d);
    TermsOneMore(s, v, d, 0);
    AtRankIs(v, d, |points|);
  }

  lemma AtRankIs(v: nat, d: real, n: nat)
    ensures AtRank(v, d, n) == v as real * Power(d, n)
  {
    hide Power;
  }

  lemma EasiestIsLast(points: seq<nat>, v: nat)
    requires forall i | 0 <= i < |points| :: v <= points[i]
    ensures HardestFirst(points + [v]) == HardestFirst(points) + [v]
  {
    hide HardestFirst;
    var s := Listing(points, 1.0);
    var t := Listing(points + [v], 1.0);
    forall i | 0 <= i < |s| ensures v <= s[i] {
      assert s[i] in multiset(s) && s[i] in multiset(points);
    }
    SortedBefore(s, v);
    HarderIsAnOrder();
    assert multiset(t) == multiset(s + [v]);
    SortedIsUnique<nat>(Harder, t, s + [v]);
  }

  lemma SortedBefore(s: seq<nat>, v: nat)
    requires Sorted<nat>(Harder, s) && forall i | 0 <= i < |s| :: v <= s[i]
    ensures Sorted<nat>(Harder, s + [v])
  {
  }

  lemma NothingScored(d: real)
    ensures WeightedScore([], d) == 0.0
  {
  }
}
